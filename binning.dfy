/** `Visualization.bin_data`: splits one frame's particles into colour classes.

    The frame's scalar values are normalised, cut into `bins` equal-width
    histogram bins over the frame's observed range (numpy.histogram's edge rule),
    digitised against those edges, the top index is folded down by one, and the
    particle rows are grouped per distinct index in ascending order. */
module Binning {
  import opened Particles
  import opened Normalization

  // ---------------------------------------------------------------------------
  // Sequences in ascending order

  /** Strictly ascending, hence also free of repeats. */
  predicate Increasing(s: seq<int>) {
    forall a, b :: 0 <= a < b < |s| ==> s[a] < s[b]
  }

  /** A strictly ascending sequence of integers inside [lo, hi] has at most hi - lo + 1 elements. */
  lemma {:induction false} IncreasingWithinBound(s: seq<int>, lo: int, hi: int)
    requires Increasing(s) && lo <= hi + 1
    requires forall k :: 0 <= k < |s| ==> lo <= s[k] <= hi
    ensures |s| <= hi - lo + 1
  {
    if s != [] {
      var t := s[1..];
      assert forall k :: 0 <= k < |t| ==> s[0] + 1 <= t[k] <= hi by {
        forall k | 0 <= k < |t| ensures s[0] + 1 <= t[k] <= hi {
          assert t[k] == s[k + 1];
        }
      }
      IncreasingWithinBound(t, s[0] + 1, hi);
    }
  }

  // ---------------------------------------------------------------------------
  // Minimum and maximum (`a.min()`, `a.max()`)

  function MinOf(s: seq<real>): (m: real)
    requires |s| > 0
    ensures m in s
    ensures forall i :: 0 <= i < |s| ==> m <= s[i]
  {
    if |s| == 1 then s[0]
    else
      var t := MinOf(s[1..]);
      if s[0] <= t then s[0] else t
  }

  function MaxOf(s: seq<real>): (m: real)
    requires |s| > 0
    ensures m in s
    ensures forall i :: 0 <= i < |s| ==> s[i] <= m
  {
    if |s| == 1 then s[0]
    else
      var t := MaxOf(s[1..]);
      if s[0] >= t then s[0] else t
  }

  /** The largest bin index, `dig.max()`. */
  function MaxIndex(s: seq<int>): (m: int)
    requires |s| > 0
    ensures m in s
    ensures forall i :: 0 <= i < |s| ==> s[i] <= m
  {
    if |s| == 1 then s[0]
    else
      var t := MaxIndex(s[..|s| - 1]);
      if s[|s| - 1] > t then s[|s| - 1] else t
  }

  // ---------------------------------------------------------------------------
  // Histogram edges (`np.histogram(v, bins)[1]`)

  /** The lower end of the histogram range: the minimum, widened by 0.5 when all values are equal. */
  function FirstEdge(v: seq<real>): real
    requires |v| > 0
  {
    if MinOf(v) == MaxOf(v) then MinOf(v) - 0.5 else MinOf(v)
  }

  /** The upper end of the histogram range: the maximum, widened by 0.5 when all values are equal. */
  function LastEdge(v: seq<real>): real
    requires |v| > 0
  {
    if MinOf(v) == MaxOf(v) then MaxOf(v) + 0.5 else MaxOf(v)
  }

  /** `np.linspace(a, b, bins + 1)`: evenly spaced from a to b, the last one set exactly to b. */
  function EvenEdges(a: real, b: real, bins: nat): (e: seq<real>)
    requires bins > 0
    ensures |e| == bins + 1
    ensures e[0] == a && e[bins] == b
  {
    var step := (b - a) / (bins as real);
    seq(bins + 1, k requires 0 <= k <= bins => if k == bins then b else a + (k as real) * step)
  }

  /** The histogram edges of a frame. */
  function Edges(v: seq<real>, bins: nat): (e: seq<real>)
    requires |v| > 0 && bins > 0
    ensures |e| == bins + 1
    ensures e[0] == FirstEdge(v) && e[bins] == LastEdge(v)
  {
    EvenEdges(FirstEdge(v), LastEdge(v), bins)
  }

  /** k1 < k2 and step > 0 give k1 * step < k2 * step. */
  lemma MulStrict(k1: int, k2: int, step: real)
    requires k1 < k2 && step > 0.0
    ensures (k1 as real) * step < (k2 as real) * step
  {
    assert (k2 as real) * step - (k1 as real) * step == ((k2 - k1) as real) * step;
  }

  /** The width of one bin is positive and `bins` of them span the range. */
  lemma StepPositive(a: real, b: real, bins: nat)
    requires a < b && bins > 0
    ensures (b - a) / (bins as real) > 0.0
    ensures (bins as real) * ((b - a) / (bins as real)) == b - a
  {
  }

  /** Every edge but the last lies strictly below the last. */
  lemma EdgeBelowLast(a: real, b: real, bins: nat, k: nat)
    requires a < b && k < bins
    ensures a + (k as real) * ((b - a) / (bins as real)) < b
  {
    var step := (b - a) / (bins as real);
    StepPositive(a, b, bins);
    MulStrict(k, bins, step);
  }

  /** Evenly spaced edges over a non-empty range are strictly ascending. */
  lemma EvenEdgesIncreasing(a: real, b: real, bins: nat)
    requires a < b && bins > 0
    ensures forall k1, k2 :: 0 <= k1 < k2 <= bins ==> EvenEdges(a, b, bins)[k1] < EvenEdges(a, b, bins)[k2]
  {
    var e := EvenEdges(a, b, bins);
    var step := (b - a) / (bins as real);
    StepPositive(a, b, bins);
    forall k1, k2 | 0 <= k1 < k2 <= bins
      ensures e[k1] < e[k2]
    {
      assert e[k1] == a + (k1 as real) * step;
      if k2 == bins {
        EdgeBelowLast(a, b, bins, k1);
      } else {
        MulStrict(k1, k2, step);
      }
    }
  }

  /** The frame's histogram range is never empty. */
  lemma EdgesIncreasing(v: seq<real>, bins: nat)
    requires |v| > 0 && bins > 0
    ensures FirstEdge(v) < LastEdge(v)
    ensures forall k1, k2 :: 0 <= k1 < k2 <= bins ==> Edges(v, bins)[k1] < Edges(v, bins)[k2]
  {
    assert MinOf(v) <= MaxOf(v) by { assert MinOf(v) <= v[0] <= MaxOf(v); }
    EvenEdgesIncreasing(FirstEdge(v), LastEdge(v), bins);
  }

  // ---------------------------------------------------------------------------
  // Digitising (`np.digitize(x, edges) - 1`)

  /** The number of edges at or below x. */
  function CountAtMost(e: seq<real>, x: real): (c: nat)
    ensures c <= |e|
  {
    if e == [] then 0
    else CountAtMost(e[..|e| - 1], x) + (if e[|e| - 1] <= x then 1 else 0)
  }

  /** All edges are counted exactly when every edge lies at or below x. */
  lemma {:induction false} CountAtMostAll(e: seq<real>, x: real)
    ensures CountAtMost(e, x) == |e| <==> forall k :: 0 <= k < |e| ==> e[k] <= x
  {
    if e != [] {
      var p := e[..|e| - 1];
      CountAtMostAll(p, x);
      assert forall k :: 0 <= k < |p| ==> p[k] == e[k];
    }
  }

  /** An edge at or below x is counted. */
  lemma {:induction false} CountAtMostPositive(e: seq<real>, x: real, k: nat)
    requires k < |e| && e[k] <= x
    ensures CountAtMost(e, x) >= 1
  {
    if k < |e| - 1 {
      CountAtMostPositive(e[..|e| - 1], x, k);
    }
  }

  /** A larger value has at least as many edges below it. */
  lemma {:induction false} CountAtMostMonotone(e: seq<real>, x: real, y: real)
    requires x <= y
    ensures CountAtMost(e, x) <= CountAtMost(e, y)
  {
    if e != [] {
      CountAtMostMonotone(e[..|e| - 1], x, y);
    }
  }

  /** Against strictly larger later edges, the first edge itself is the only edge at or below it. */
  lemma {:induction false} CountAtMostFirst(e: seq<real>)
    requires |e| > 0
    requires forall k :: 0 < k < |e| ==> e[0] < e[k]
    ensures CountAtMost(e, e[0]) == 1
  {
    if |e| > 1 {
      var p := e[..|e| - 1];
      assert forall k :: 0 <= k < |p| ==> p[k] == e[k];
      CountAtMostFirst(p);
    }
  }

  /** The bin index of one value before folding. */
  function DigitizeValue(e: seq<real>, x: real): int {
    CountAtMost(e, x) - 1
  }

  /** `np.digitize(v, e) - 1` for a whole frame. */
  function DigitizeAll(e: seq<real>, v: seq<real>): (r: seq<int>)
    ensures |r| == |v|
    ensures forall i :: 0 <= i < |v| ==> r[i] == DigitizeValue(e, v[i])
  {
    seq(|v|, i requires 0 <= i < |v| => DigitizeValue(e, v[i]))
  }

  /** One digitisation: counts the edges at or below x. */
  method CountEdgesAtMost(e: seq<real>, x: real) returns (c: nat)
    ensures c == CountAtMost(e, x)
  {
    c := 0;
    for k := 0 to |e|
      invariant c == CountAtMost(e[..k], x)
    {
      assert e[..k + 1][..k] == e[..k];
      if e[k] <= x {
        c := c + 1;
      }
    }
    assert e[..|e|] == e;
  }

  /** `np.digitize(x=v, bins=e) - 1` into a new array. */
  method Digitize(v: seq<real>, e: seq<real>) returns (dig: array<int>)
    ensures fresh(dig) && dig.Length == |v|
    ensures forall i :: 0 <= i < |v| ==> dig[i] == DigitizeValue(e, v[i])
  {
    dig := new int[|v|];
    for i := 0 to |v|
      invariant forall k :: 0 <= k < i ==> dig[k] == DigitizeValue(e, v[k])
    {
      var c := CountEdgesAtMost(e, v[i]);
      dig[i] := (c as int) - 1;
    }
  }

  // ---------------------------------------------------------------------------
  // The fold (`dig[dig == dig.max()] = dig.max() - 1`)

  function FoldTop(d: int, top: int): int {
    if d == top then top - 1 else d
  }

  /** Folding the top index keeps the order of indices at or below it. */
  lemma FoldTopMonotone(d1: int, d2: int, top: int)
    requires d1 <= d2 <= top
    ensures FoldTop(d1, top) <= FoldTop(d2, top)
  {
  }

  /** The indices after the fold. */
  function Folded(dig: seq<int>): (r: seq<int>)
    requires |dig| > 0
    ensures |r| == |dig|
  {
    seq(|dig|, i requires 0 <= i < |dig| => FoldTop(dig[i], MaxIndex(dig)))
  }

  /** The fold, in place: finds the largest index, then lowers every copy of it by one. */
  method FoldMax(dig: array<int>)
    requires dig.Length > 0
    modifies dig
    ensures dig[..] == Folded(old(dig[..]))
  {
    var n := dig.Length;
    var top := dig[0];
    for i := 1 to n
      invariant top == MaxIndex(dig[..i])
    {
      assert dig[..i + 1][..i] == dig[..i];
      if dig[i] > top {
        top := dig[i];
      }
    }
    assert dig[..n] == dig[..];
    ghost var before := dig[..];
    for i := 0 to n
      invariant forall k :: 0 <= k < i ==> dig[k] == FoldTop(before[k], top)
      invariant forall k :: i <= k < n ==> dig[k] == before[k]
    {
      if dig[i] == top {
        dig[i] := top - 1;
      }
    }
  }

  /** All bin indices of a frame, after the fold. */
  function BinIndices(v: seq<real>, bins: nat): (r: seq<int>)
    requires |v| > 0 && bins > 0
    ensures |r| == |v|
  {
    Folded(DigitizeAll(Edges(v, bins), v))
  }

  /** Against edges that end at hi, a value in [e[0], hi] gets an index in
      0..|e|-1, and the index |e|-1 exactly when the value is hi. */
  lemma DigitizeRange(e: seq<real>, x: real, hi: real)
    requires |e| > 0 && e[|e| - 1] == hi
    requires forall k :: 0 <= k < |e| ==> e[k] <= hi
    requires e[0] <= x <= hi
    ensures 0 <= DigitizeValue(e, x) <= |e| - 1
    ensures DigitizeValue(e, x) == |e| - 1 <==> x == hi
  {
    CountAtMostPositive(e, x, 0);
    CountAtMostAll(e, x);
    if x < hi {
      assert !(e[|e| - 1] <= x);
    }
  }

  /** When the frame's values are not all equal, every folded index lies in
      0..bins-1 and every particle holding the frame maximum lands in bin bins-1. */
  lemma BinIndicesRange(v: seq<real>, bins: nat)
    requires |v| > 0 && bins > 0
    requires MinOf(v) < MaxOf(v)
    ensures forall i :: 0 <= i < |v| ==> 0 <= BinIndices(v, bins)[i] < bins
    ensures forall i :: 0 <= i < |v| && v[i] == MaxOf(v) ==> BinIndices(v, bins)[i] == bins - 1
  {
    var e := Edges(v, bins);
    var hi := MaxOf(v);
    EdgesSpanFrame(v, bins);
    DigitizeAllRange(e, v, hi);
    var j :| 0 <= j < |v| && v[j] == hi;
    FoldedRange(DigitizeAll(e, v), bins, j);
  }

  /** When the frame's values are not all equal, the edges run from its minimum
      to its maximum, every edge at or below the maximum, every value in between. */
  lemma EdgesSpanFrame(v: seq<real>, bins: nat)
    requires |v| > 0 && bins > 0
    requires MinOf(v) < MaxOf(v)
    ensures Edges(v, bins)[0] == MinOf(v) && Edges(v, bins)[bins] == MaxOf(v)
    ensures forall k :: 0 <= k <= bins ==> Edges(v, bins)[k] <= MaxOf(v)
    ensures forall i :: 0 <= i < |v| ==> MinOf(v) <= v[i] <= MaxOf(v)
  {
    var e := Edges(v, bins);
    EdgesIncreasing(v, bins);
    forall k | 0 <= k < bins ensures e[k] <= MaxOf(v) {
      assert e[k] < e[bins];
    }
  }

  /** Against edges that end at hi, every value within [e[0], hi] gets an index
      in 0..|e|-1, and the index |e|-1 exactly when the value is hi. */
  lemma DigitizeAllRange(e: seq<real>, v: seq<real>, hi: real)
    requires |e| > 0 && e[|e| - 1] == hi
    requires forall k :: 0 <= k < |e| ==> e[k] <= hi
    requires forall i :: 0 <= i < |v| ==> e[0] <= v[i] <= hi
    ensures forall i :: 0 <= i < |v| ==> 0 <= DigitizeAll(e, v)[i] <= |e| - 1
    ensures forall i :: 0 <= i < |v| ==> (DigitizeAll(e, v)[i] == |e| - 1 <==> v[i] == hi)
  {
    forall i | 0 <= i < |v|
      ensures 0 <= DigitizeAll(e, v)[i] <= |e| - 1
      ensures DigitizeAll(e, v)[i] == |e| - 1 <==> v[i] == hi
    {
      DigitizeRange(e, v[i], hi);
    }
  }

  /** Indices in 0..bins of which one reaches bins fold into 0..bins-1, the top ones into bins-1. */
  lemma FoldedRange(raw: seq<int>, bins: nat, j: nat)
    requires bins > 0 && j < |raw| && raw[j] == bins
    requires forall i :: 0 <= i < |raw| ==> 0 <= raw[i] <= bins
    ensures forall i :: 0 <= i < |raw| ==> 0 <= Folded(raw)[i] < bins
    ensures forall i :: 0 <= i < |raw| && raw[i] == bins ==> Folded(raw)[i] == bins - 1
    ensures forall i :: 0 <= i < |raw| && raw[i] < bins ==> Folded(raw)[i] == raw[i]
  {
    assert MaxIndex(raw) == bins;
    forall i | 0 <= i < |raw|
      ensures Folded(raw)[i] == FoldTop(raw[i], bins)
    {
    }
  }

  /** When the frame's values are not all equal, every particle holding the frame minimum lands in bin 0. */
  lemma BinIndicesMinimum(v: seq<real>, bins: nat, i: nat)
    requires |v| > 0 && bins > 0
    requires MinOf(v) < MaxOf(v)
    requires i < |v| && v[i] == MinOf(v)
    ensures BinIndices(v, bins)[i] == 0
  {
    var e := Edges(v, bins);
    EdgesIncreasing(v, bins);
    EdgesSpanFrame(v, bins);
    DigitizeAllRange(e, v, MaxOf(v));
    CountAtMostFirst(e);
    var raw := DigitizeAll(e, v);
    assert raw[i] == 0;
    var hi :| 0 <= hi < |v| && v[hi] == MaxOf(v);
    FoldedRange(raw, bins, hi);
  }

  /** With at least two bins and a non-degenerate range, the minimum and the
      maximum land in different classes, so there are at least two classes. */
  lemma ClassesSeparateExtremes(v: seq<real>, bins: nat)
    requires |v| > 0 && bins >= 2
    requires MinOf(v) < MaxOf(v)
    ensures |Groups(BinIndices(v, bins))| >= 2
  {
    var dig := BinIndices(v, bins);
    BinIndicesRange(v, bins);
    var lo :| 0 <= lo < |v| && v[lo] == MinOf(v);
    var hi :| 0 <= hi < |v| && v[hi] == MaxOf(v);
    BinIndicesMinimum(v, bins, lo);
    assert dig[lo] == 0 && dig[hi] == bins - 1;
    TwoMembers(SortedUnique(dig), dig[lo], dig[hi]);
  }

  /** A sequence holding two different values has at least two elements. */
  lemma TwoMembers(u: seq<int>, a: int, b: int)
    requires a in u && b in u && a != b
    ensures |u| >= 2
  {
  }

  /** When all of a frame's values are equal (numpy widens the range), every particle gets the same index. */
  lemma BinIndicesConstant(v: seq<real>, bins: nat)
    requires |v| > 0 && bins > 0
    requires MinOf(v) == MaxOf(v)
    ensures forall i, j :: 0 <= i < |v| && 0 <= j < |v| ==> BinIndices(v, bins)[i] == BinIndices(v, bins)[j]
  {
    assert forall i :: 0 <= i < |v| ==> v[i] == MinOf(v);
  }

  /** A particle with a larger normalised value never gets a smaller folded index. */
  lemma BinIndicesMonotone(v: seq<real>, bins: nat, i1: nat, i2: nat)
    requires |v| > 0 && bins > 0
    requires i1 < |v| && i2 < |v| && v[i1] <= v[i2]
    ensures BinIndices(v, bins)[i1] <= BinIndices(v, bins)[i2]
  {
    var e := Edges(v, bins);
    var raw := DigitizeAll(e, v);
    CountAtMostMonotone(e, v[i1], v[i2]);
    FoldTopMonotone(raw[i1], raw[i2], MaxIndex(raw));
  }

  // ---------------------------------------------------------------------------
  // Grouping (`for d in np.sort(np.unique(dig))`, `np.where(d == dig)[0]`)

  /** `np.where(d == dig)[0]`: the positions holding index d, in ascending order. */
  function Select(dig: seq<int>, d: int): (r: seq<nat>)
    ensures forall i :: i in r <==> 0 <= i < |dig| && dig[i] == d
    ensures forall k :: 0 <= k < |r| ==> r[k] < |dig|
    ensures Increasing(r)
  {
    if dig == [] then []
    else
      var n := |dig| - 1;
      var r := Select(dig[..n], d);
      assert forall i :: 0 <= i < n ==> dig[..n][i] == dig[i];
      r + (if dig[n] == d then [n] else [])
  }

  /** Adds x to an ascending sequence, keeping it ascending and free of repeats. */
  function Insert(s: seq<int>, x: int): (r: seq<int>)
    requires Increasing(s)
    ensures Increasing(r)
    ensures forall y :: y in r <==> y in s || y == x
  {
    if s == [] then [x]
    else if x < s[0] then
      var r := [x] + s;
      assert forall k :: 0 < k < |r| ==> r[k] == s[k - 1];
      assert forall k :: 0 <= k < |s| ==> x < s[k] by {
        forall k | 0 <= k < |s| ensures x < s[k] {
          if k > 0 { assert s[0] < s[k]; }
        }
      }
      r
    else if x == s[0] then s
    else
      var rest := s[1..];
      assert s == [s[0]] + rest;
      assert forall k :: 0 <= k < |rest| ==> s[0] < rest[k] by {
        forall k | 0 <= k < |rest| ensures s[0] < rest[k] {
          assert rest[k] == s[k + 1];
        }
      }
      var t := Insert(rest, x);
      assert forall k :: 0 <= k < |t| ==> s[0] < t[k] by {
        forall k | 0 <= k < |t| ensures s[0] < t[k] {
          assert t[k] in t;
          if t[k] != x {
            var j :| 0 <= j < |rest| && rest[j] == t[k];
          }
        }
      }
      var r := [s[0]] + t;
      assert forall k :: 0 < k < |r| ==> r[k] == t[k - 1];
      r
  }

  /** `np.sort(np.unique(dig))`: the distinct indices, ascending. */
  function SortedUnique(s: seq<int>): (r: seq<int>)
    ensures Increasing(r)
    ensures forall y :: y in r <==> y in s
  {
    if s == [] then []
    else
      var p := s[..|s| - 1];
      assert forall y :: y in s <==> y in p || y == s[|s| - 1];
      Insert(SortedUnique(p), s[|s| - 1])
  }

  /** The index groups of a frame, one per distinct bin index, ascending. */
  function Groups(dig: seq<int>): (g: seq<seq<nat>>)
    ensures |g| == |SortedUnique(dig)|
    ensures forall j :: 0 <= j < |g| ==> g[j] == Select(dig, SortedUnique(dig)[j])
  {
    var u := SortedUnique(dig);
    seq(|u|, j requires 0 <= j < |u| => Select(dig, u[j]))
  }

  /** `pos[idx, :]`: the rows at the given positions, in that order. */
  function Gather<T>(pos: seq<T>, idx: seq<nat>): (r: seq<T>)
    requires forall k :: 0 <= k < |idx| ==> idx[k] < |pos|
    ensures |r| == |idx|
    ensures forall k :: 0 <= k < |idx| ==> r[k] == pos[idx[k]]
  {
    seq(|idx|, k requires 0 <= k < |idx| => pos[idx[k]])
  }

  /** The row subsets of a frame for given bin indices. */
  function GroupedRows(pos: seq<Vec3>, dig: seq<int>): (r: seq<seq<Vec3>>)
    requires |pos| == |dig|
    ensures |r| == |Groups(dig)|
    ensures forall j :: 0 <= j < |r| ==> r[j] == Gather(pos, Groups(dig)[j])
  {
    var g := Groups(dig);
    seq(|g|, j requires 0 <= j < |g| => Gather(pos, g[j]))
  }

  /** The loop that appends one row subset per distinct index. */
  method GroupRows(pos: seq<Vec3>, dig: seq<int>) returns (sets: seq<seq<Vec3>>)
    requires |pos| == |dig|
    ensures sets == GroupedRows(pos, dig)
  {
    var u := SortedUnique(dig);
    sets := [];
    for j := 0 to |u|
      invariant |sets| == j
      invariant forall k :: 0 <= k < j ==> sets[k] == Gather(pos, Select(dig, u[k]))
    {
      sets := sets + [Gather(pos, Select(dig, u[j]))];
    }
  }

  // ---------------------------------------------------------------------------
  // The partition

  /** Every particle lies in a group: the one labelled by its own bin index. */
  lemma GroupsCover(dig: seq<int>)
    ensures forall i :: 0 <= i < |dig| ==>
              exists j :: 0 <= j < |Groups(dig)| && SortedUnique(dig)[j] == dig[i] && i in Groups(dig)[j]
  {
    var u := SortedUnique(dig);
    forall i | 0 <= i < |dig|
      ensures exists j :: 0 <= j < |Groups(dig)| && u[j] == dig[i] && i in Groups(dig)[j]
    {
      assert dig[i] in u;
      var j :| 0 <= j < |u| && u[j] == dig[i];
      assert i in Groups(dig)[j];
    }
  }

  /** No particle lies in two groups, and the groups' bin indices ascend with the list order. */
  lemma GroupsDisjointAscending(dig: seq<int>)
    ensures forall j1, j2, i1, i2 :: 0 <= j1 < j2 < |Groups(dig)| && i1 in Groups(dig)[j1] && i2 in Groups(dig)[j2]
              ==> dig[i1] < dig[i2]
    ensures forall j1, j2, i :: 0 <= j1 < j2 < |Groups(dig)| && i in Groups(dig)[j1] ==> i !in Groups(dig)[j2]
  {
    var u := SortedUnique(dig);
    forall j1, j2, i1, i2 | 0 <= j1 < j2 < |Groups(dig)| && i1 in Groups(dig)[j1] && i2 in Groups(dig)[j2]
      ensures dig[i1] < dig[i2]
    {
      assert dig[i1] == u[j1] && dig[i2] == u[j2];
    }
  }

  /** Every group is non-empty and lists its particles in their original order, without repeats. */
  lemma GroupsNonEmptyOrdered(dig: seq<int>)
    ensures forall j :: 0 <= j < |Groups(dig)| ==> |Groups(dig)[j]| > 0 && Increasing(Groups(dig)[j])
  {
    var u := SortedUnique(dig);
    forall j | 0 <= j < |Groups(dig)|
      ensures |Groups(dig)[j]| > 0
    {
      assert u[j] in dig;
      var i :| 0 <= i < |dig| && dig[i] == u[j];
      assert i in Groups(dig)[j];
    }
  }

  /** The total length of a sequence of sequences. */
  function SumLengths<T>(ss: seq<seq<T>>): nat {
    if ss == [] then 0 else |ss[0]| + SumLengths(ss[1..])
  }

  /** Two sequences of sequences with the same lengths position by position have the same total. */
  lemma {:induction false} SumLengthsSameShape<A, B>(xs: seq<seq<A>>, ys: seq<seq<B>>)
    requires |xs| == |ys|
    requires forall j :: 0 <= j < |xs| ==> |xs[j]| == |ys[j]|
    ensures SumLengths(xs) == SumLengths(ys)
  {
    if xs != [] {
      SumLengthsSameShape(xs[1..], ys[1..]);
    }
  }

  /** The number of positions whose index is one of the given labels. */
  function CountIn(dig: seq<int>, labels: seq<int>): nat {
    if dig == [] then 0
    else CountIn(dig[..|dig| - 1], labels) + (if dig[|dig| - 1] in labels then 1 else 0)
  }

  /** Adding a fresh label adds the size of its group. */
  lemma {:induction false} CountInCons(dig: seq<int>, d: int, labels: seq<int>)
    requires d !in labels
    ensures CountIn(dig, [d] + labels) == |Select(dig, d)| + CountIn(dig, labels)
  {
    if dig != [] {
      CountInCons(dig[..|dig| - 1], d, labels);
    }
  }

  /** No labels, no positions counted. */
  lemma {:induction false} CountInNoLabels(dig: seq<int>)
    ensures CountIn(dig, []) == 0
  {
    if dig != [] {
      CountInNoLabels(dig[..|dig| - 1]);
    }
  }

  /** When every index is a label, every position is counted. */
  lemma {:induction false} CountInAll(dig: seq<int>, labels: seq<int>)
    requires forall i :: 0 <= i < |dig| ==> dig[i] in labels
    ensures CountIn(dig, labels) == |dig|
  {
    if dig != [] {
      CountInAll(dig[..|dig| - 1], labels);
    }
  }

  /** The groups of distinct labels have sizes summing to the count of positions carrying those labels. */
  lemma {:induction false} SumLengthsSelect(dig: seq<int>, labels: seq<int>)
    requires Increasing(labels)
    ensures SumLengths(seq(|labels|, j requires 0 <= j < |labels| => Select(dig, labels[j]))) == CountIn(dig, labels)
  {
    var ss := seq(|labels|, j requires 0 <= j < |labels| => Select(dig, labels[j]));
    if labels == [] {
      CountInNoLabels(dig);
    } else {
      var rest := labels[1..];
      assert Increasing(rest);
      assert ss[1..] == seq(|rest|, j requires 0 <= j < |rest| => Select(dig, rest[j]));
      SumLengthsSelect(dig, rest);
      assert ss[0] == Select(dig, labels[0]);
      assert SumLengths(ss) == |ss[0]| + SumLengths(ss[1..]);
      assert labels[0] !in rest;
      assert labels == [labels[0]] + rest;
      CountInCons(dig, labels[0], rest);
    }
  }

  /** The group sizes sum to the number of particles. */
  lemma GroupsSizesSum(dig: seq<int>)
    ensures SumLengths(Groups(dig)) == |dig|
  {
    var u := SortedUnique(dig);
    assert Groups(dig) == seq(|u|, j requires 0 <= j < |u| => Select(dig, u[j]));
    SumLengthsSelect(dig, u);
    CountInAll(dig, u);
  }

  /** When all indices are equal there is exactly one group, holding every particle. */
  lemma GroupsConstant(dig: seq<int>)
    requires |dig| > 0
    requires forall i :: 0 <= i < |dig| ==> dig[i] == dig[0]
    ensures |Groups(dig)| == 1
  {
    var u := SortedUnique(dig);
    assert dig[0] in u;
    forall k | 0 <= k < |u| ensures dig[0] <= u[k] <= dig[0] {
      assert u[k] in dig;
    }
    IncreasingWithinBound(u, dig[0], dig[0]);
  }

  // ---------------------------------------------------------------------------
  // bin_data

  /** The colour classes of one frame: the rows of each group, ascending by bin index. */
  function FrameClasses(pos: seq<Vec3>, temp: seq<real>, cfg: NormConfig, bins: nat, log10: real -> real): (r: seq<seq<Vec3>>)
    requires |pos| == |temp| > 0 && bins > 0
    requires ValidConfig(cfg) && StrictlyIncreasing(log10)
    ensures 1 <= |r| <= bins
    ensures forall j :: 0 <= j < |r| ==> |r[j]| > 0
  {
    var v := NormalizedSeq(cfg, log10, temp);
    var dig := BinIndices(v, bins);
    ClassCountBound(v, bins);
    GroupsNonEmptyOrdered(dig);
    GroupedRows(pos, dig)
  }

  /** There is at least one class and at most `bins`. */
  lemma ClassCountBound(v: seq<real>, bins: nat)
    requires |v| > 0 && bins > 0
    ensures 1 <= |Groups(BinIndices(v, bins))| <= bins
  {
    var dig := BinIndices(v, bins);
    var u := SortedUnique(dig);
    assert dig[0] in u;
    if MinOf(v) < MaxOf(v) {
      BinIndicesRange(v, bins);
      forall k | 0 <= k < |u| ensures 0 <= u[k] <= bins - 1 {
        assert u[k] in dig;
      }
      IncreasingWithinBound(u, 0, bins - 1);
    } else {
      BinIndicesConstant(v, bins);
      GroupsConstant(dig);
    }
  }

  /** `bin_data`: normalise, take the histogram edges, digitise, fold in place, group. */
  method BinData(pos: seq<Vec3>, temp: seq<real>, cfg: NormConfig, bins: nat, log10: real -> real)
    returns (sets: seq<seq<Vec3>>)
    requires |pos| == |temp| > 0 && bins > 0
    requires ValidConfig(cfg) && StrictlyIncreasing(log10)
    ensures sets == FrameClasses(pos, temp, cfg, bins, log10)
    ensures 1 <= |sets| <= bins
    ensures SumLengths(sets) == |pos|
  {
    var logNorm := LogNormalize(temp, cfg, log10);
    assert logNorm == NormalizedSeq(cfg, log10, temp);
    var edges := Edges(logNorm, bins);
    var dig := Digitize(logNorm, edges);
    assert dig[..] == DigitizeAll(edges, logNorm);
    FoldMax(dig);
    assert dig[..] == BinIndices(logNorm, bins);
    sets := GroupRows(pos, dig[..]);
    FrameClassesPartition(pos, temp, cfg, bins, log10);
  }

  /** The classes partition the frame: the sizes sum to the particle count, and
      each class is the rows of its index group, in the frame's order. */
  lemma FrameClassesPartition(pos: seq<Vec3>, temp: seq<real>, cfg: NormConfig, bins: nat, log10: real -> real)
    requires |pos| == |temp| > 0 && bins > 0
    requires ValidConfig(cfg) && StrictlyIncreasing(log10)
    ensures SumLengths(FrameClasses(pos, temp, cfg, bins, log10)) == |pos|
  {
    var dig := BinIndices(NormalizedSeq(cfg, log10, temp), bins);
    GroupsSizesSum(dig);
    SumLengthsSameShape(FrameClasses(pos, temp, cfg, bins, log10), Groups(dig));
  }

  /** Every particle of an earlier class has a strictly smaller raw value than
      every particle of a later class: the list order is the order of the field. */
  lemma FrameClassesOrdered(temp: seq<real>, cfg: NormConfig, bins: nat, log10: real -> real,
                            j1: nat, j2: nat, i1: nat, i2: nat)
    requires |temp| > 0 && bins > 0
    requires ValidConfig(cfg) && StrictlyIncreasing(log10)
    requires j1 < j2 < |Groups(BinIndices(NormalizedSeq(cfg, log10, temp), bins))|
    requires i1 in Groups(BinIndices(NormalizedSeq(cfg, log10, temp), bins))[j1]
    requires i2 in Groups(BinIndices(NormalizedSeq(cfg, log10, temp), bins))[j2]
    ensures i1 < |temp| && i2 < |temp| && temp[i1] < temp[i2]
  {
    var v := NormalizedSeq(cfg, log10, temp);
    var dig := BinIndices(v, bins);
    GroupsDisjointAscending(dig);
    assert dig[i1] < dig[i2];
    if v[i2] <= v[i1] {
      BinIndicesMonotone(v, bins, i2, i1);
    }
    NormalizedReflectsOrder(cfg, log10, temp[i1], temp[i2]);
  }
}
