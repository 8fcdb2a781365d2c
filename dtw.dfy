/**
 * Dynamic time warping (dtw.cpp).
 *
 * The aligner fills an (n+1) x (m+1) cumulative-cost table whose cell (i, j)
 * is the cheapest way to align the first i vectors of one sequence with the
 * first j of the other, records in a second table which neighbour each cell
 * was reached from, and walks those records back from (n, m) to recover the
 * alignment path. A banded variant (Sakoe-Chiba) only fills the cells with
 * |i - j| <= w.
 *
 * The specification is the recursive function CostAt together with StepAt
 * and PathFrom; the class DynamicTimeWarping fills the two tables in place and
 * is proved to produce exactly those values. The lemmas then say what the
 * values mean: the path is a warping path, its cost is the distance, no
 * warping path is cheaper, and the distance is symmetric, zero for a
 * sequence against itself and never lowered by the band.
 */
module Dtw {
  import Layout

  datatype Option<T> = None | Some(value: T)

  /** A cost in double precision arithmetic: a finite value or +infinity. */
  datatype Cost = Finite(r: real) | Infinity

  function Add(x: Cost, y: Cost): Cost
  {
    if x.Finite? && y.Finite? then Finite(x.r + y.r) else Infinity
  }

  /** The order of the extended reals: +infinity is above every finite value. */
  predicate Le(x: Cost, y: Cost)
  {
    y.Infinity? || (x.Finite? && x.r <= y.r)
  }

  function Min(x: Cost, y: Cost): (z: Cost)
    ensures Le(z, x) && Le(z, y)
    ensures z == x || z == y
  {
    if Le(x, y) then x else y
  }

  /** std::min over three costs. */
  function Min3(x: Cost, y: Cost, z: Cost): (w: Cost)
    ensures Le(w, x) && Le(w, y) && Le(w, z)
    ensures w == x || w == y || w == z
  {
    Min(Min(x, y), z)
  }

  predicate NonNegative(c: Cost)
  {
    c.Infinity? || 0.0 <= c.r
  }

  /** A cost divided by a positive count; +infinity stays +infinity. */
  function Div(c: Cost, k: nat): Cost
    requires k > 0
  {
    if c.Infinity? then Infinity else Finite(c.r / k as real)
  }

  function MaxInt(a: int, b: int): int { if a < b then b else a }
  function MinInt(a: int, b: int): int { if a < b then a else b }
  function Abs(x: real): real { if x < 0.0 then -x else x }

  // ---------------------------------------------------------------------
  // Local distances
  // ---------------------------------------------------------------------

  datatype Metric = Euclidean | Manhattan

  /** Every metric name other than "manhattan" selects the Euclidean distance. */
  function MetricNamed(name: string): Metric
  {
    if name == "manhattan" then Manhattan else Euclidean
  }

  /** Sum of (a[k] - b[k])^2 over the first k coordinates. */
  function SumSquares(a: seq<real>, b: seq<real>, k: nat): real
    requires k <= |a| && k <= |b|
  {
    if k == 0 then 0.0 else SumSquares(a, b, k - 1) + (a[k - 1] - b[k - 1]) * (a[k - 1] - b[k - 1])
  }

  /** Sum of |a[k] - b[k]| over the first k coordinates. */
  function SumAbs(a: seq<real>, b: seq<real>, k: nat): real
    requires k <= |a| && k <= |b|
  {
    if k == 0 then 0.0 else SumAbs(a, b, k - 1) + Abs(a[k - 1] - b[k - 1])
  }

  /**
   * The square root is not modelled; the proofs only rely on it mapping 0 to
   * 0 and non-negative numbers to non-negative numbers.
   */
  ghost predicate SqrtLike(sqrt: real -> real)
  {
    sqrt(0.0) == 0.0 && forall x :: 0.0 <= x ==> 0.0 <= sqrt(x)
  }

  /** Distance between two feature vectors; +infinity when their sizes differ. */
  function Distance(metric: Metric, sqrt: real -> real, a: seq<real>, b: seq<real>): Cost
  {
    if |a| != |b| then Infinity
    else match metric
      case Euclidean => Finite(sqrt(SumSquares(a, b, |a|)))
      case Manhattan => Finite(SumAbs(a, b, |a|))
  }

  // ---------------------------------------------------------------------
  // The cost and direction tables
  // ---------------------------------------------------------------------

  /**
   * One alignment problem: the two sequences, the metric, the band (None for
   * the unconstrained aligner, Some(w) for the Sakoe-Chiba band of width w)
   * and the square root the Euclidean metric uses.
   */
  datatype Problem = Problem(seq1: seq<seq<real>>, seq2: seq<seq<real>>, metric: Metric,
                             band: Option<int>, sqrt: real -> real)

  /** First and last column of row i the aligner fills (m is the column count). */
  function BandStart(band: Option<int>, i: int): int
  {
    match band
    case None => 1
    case Some(w) => MaxInt(1, i - w)
  }

  function BandEnd(band: Option<int>, m: int, i: int): int
  {
    match band
    case None => m
    case Some(w) => MinInt(m, i + w)
  }

  predicate InBand(band: Option<int>, m: int, i: int, j: int)
  {
    BandStart(band, i) <= j <= BandEnd(band, m, i)
  }

  /** The final cell (n, m) is inside the band. */
  predicate Reaches(p: Problem)
  {
    p.band.None? || (|p.seq1| - |p.seq2| <= p.band.value && |p.seq2| - |p.seq1| <= p.band.value)
  }

  predicate WidthOk(p: Problem)
  {
    p.band.None? || 0 <= p.band.value
  }

  /** Local cost of aligning seq1[i] with seq2[j]. */
  function Local(p: Problem, i: nat, j: nat): Cost
    requires i < |p.seq1| && j < |p.seq2|
  {
    Distance(p.metric, p.sqrt, p.seq1[i], p.seq2[j])
  }

  /**
   * Cell (i, j) of the cumulative-cost table: 0 at the origin, +infinity on the
   * rest of row 0 and column 0 and outside the band, and otherwise the local
   * cost of (i-1, j-1) plus the cheapest of the match, insertion and deletion
   * neighbours.
   */
  function CostAt(p: Problem, i: nat, j: nat): Cost
    requires i <= |p.seq1| && j <= |p.seq2|
    decreases i + j
  {
    if i == 0 && j == 0 then Finite(0.0)
    else if i == 0 || j == 0 then Infinity
    else if !InBand(p.band, |p.seq2|, i, j) then Infinity
    else Add(Local(p, i - 1, j - 1), Min3(CostAt(p, i - 1, j - 1), CostAt(p, i, j - 1), CostAt(p, i - 1, j)))
  }

  /** The direction codes of the path table: 0, 1, 2 and the initial -1. */
  datatype Step = Diagonal | Horizontal | Vertical | Unset

  /** The diagonal wins ties, then the horizontal (insertion) neighbour. */
  function TieBreak(match_: Cost, insertion: Cost, deletion: Cost): Step
  {
    var minCost := Min3(match_, insertion, deletion);
    if minCost == match_ then Diagonal
    else if minCost == insertion then Horizontal
    else Vertical
  }

  function StepAt(p: Problem, i: nat, j: nat): Step
    requires i <= |p.seq1| && j <= |p.seq2|
  {
    if i == 0 || j == 0 || !InBand(p.band, |p.seq2|, i, j) then Unset
    else TieBreak(CostAt(p, i - 1, j - 1), CostAt(p, i, j - 1), CostAt(p, i - 1, j))
  }

  /**
   * One turn of the backtracking loop as written: the switch has no case for
   * the initial code -1, so on Unset the indices stay where they are.
   */
  function BacktrackStep(s: Step, i: int, j: int): (next: (int, int))
    ensures s == Unset <==> next == (i, j)
    ensures s != Unset ==> next.0 + next.1 < i + j && i - 1 <= next.0 && j - 1 <= next.1
  {
    match s
    case Diagonal => (i - 1, j - 1)
    case Horizontal => (i, j - 1)
    case Vertical => (i - 1, j)
    case Unset => (i, j)
  }

  /** From a filled cell of the band the recorded step leads to a filled cell or to the border. */
  lemma NextInBand(p: Problem, i: nat, j: nat)
    requires 1 <= i <= |p.seq1| && 1 <= j <= |p.seq2| && InBand(p.band, |p.seq2|, i, j)
    ensures StepAt(p, i, j) != Unset
    ensures var next := BacktrackStep(StepAt(p, i, j), i, j);
      0 <= next.0 && 0 <= next.1 &&
      (next.0 == 0 || next.1 == 0 || InBand(p.band, |p.seq2|, next.0, next.1))
  {
    var m := |p.seq2|;
    var d, h, v := CostAt(p, i - 1, j - 1), CostAt(p, i, j - 1), CostAt(p, i - 1, j);
    match StepAt(p, i, j)
    case Diagonal =>
    case Horizontal =>
      assert Min3(d, h, v) == h && h != d;
      assert h.Finite?;
    case Vertical =>
      assert Min3(d, h, v) == v && v != d;
      assert v.Finite?;
  }

  /**
   * The path the backtracking loop collects from cell (i, j), in forward order:
   * the path to the neighbour the step table names, then (i-1, j-1).
   */
  function PathFrom(p: Problem, i: nat, j: nat): seq<(int, int)>
    requires i <= |p.seq1| && j <= |p.seq2|
    requires i == 0 || j == 0 || InBand(p.band, |p.seq2|, i, j)
    decreases i + j
  {
    if i == 0 || j == 0 then []
    else
      NextInBand(p, i, j);
      var next := BacktrackStep(StepAt(p, i, j), i, j);
      PathFrom(p, next.0, next.1) + [(i - 1, j - 1)]
  }

  datatype DTWResult = DTWResult(distance: Cost, path: seq<(int, int)>)

  /**
   * The result of aligning the two sequences: +infinity and no path when
   * either is empty or the final cell lies outside the band, otherwise the
   * final cell's cost and the backtracked path.
   */
  function Align(p: Problem): DTWResult
  {
    var n, m := |p.seq1|, |p.seq2|;
    if n == 0 || m == 0 || !InBand(p.band, m, n, m) then DTWResult(Infinity, [])
    else DTWResult(CostAt(p, n, m), PathFrom(p, n, m))
  }

  /** The distance divided by the path length, or the plain distance when there is no path. */
  function Normalized(r: DTWResult): Cost
  {
    if |r.path| > 0 then Div(r.distance, |r.path|) else r.distance
  }

  // ---------------------------------------------------------------------
  // Warping paths
  // ---------------------------------------------------------------------

  /** b follows a by one of the three moves (0,+1), (+1,0) or (+1,+1). */
  predicate Adjacent(a: (int, int), b: (int, int))
  {
    (b.0 == a.0 && b.1 == a.1 + 1) || (b.0 == a.0 + 1 && b.1 == a.1) || (b.0 == a.0 + 1 && b.1 == a.1 + 1)
  }

  predicate InRange(path: seq<(int, int)>, n: int, m: int)
  {
    forall k :: 0 <= k < |path| ==> 0 <= path[k].0 < n && 0 <= path[k].1 < m
  }

  /** A monotone alignment of n with m vectors from (0, 0) to (n-1, m-1). */
  predicate IsWarpingPath(path: seq<(int, int)>, n: int, m: int)
  {
    |path| >= 1 && path[0] == (0, 0) && path[|path| - 1] == (n - 1, m - 1) &&
    InRange(path, n, m) &&
    forall k :: 0 < k < |path| ==> Adjacent(path[k - 1], path[k])
  }

  /** Every point of the path lies in the band (points are 0-based cells). */
  predicate WithinBand(band: Option<int>, m: int, path: seq<(int, int)>)
  {
    forall k :: 0 <= k < |path| ==> InBand(band, m, path[k].0 + 1, path[k].1 + 1)
  }

  /** Sum of the local costs along a path. */
  function PathCost(p: Problem, path: seq<(int, int)>): Cost
    requires InRange(path, |p.seq1|, |p.seq2|)
  {
    if path == [] then Finite(0.0)
    else
      var last := path[|path| - 1];
      Add(PathCost(p, path[..|path| - 1]), Local(p, last.0, last.1))
  }

  /** The vectors of the two sequences all have one common size. */
  predicate Comparable(p: Problem)
  {
    forall i, j :: 0 <= i < |p.seq1| && 0 <= j < |p.seq2| ==> |p.seq1[i]| == |p.seq2[j]|
  }

  // ---------------------------------------------------------------------
  // Facts about costs and local distances
  // ---------------------------------------------------------------------

  /** Le is antisymmetric, so the minimum of three costs does not depend on their order. */
  lemma Min3Swap(x: Cost, y: Cost, z: Cost)
    ensures Min3(x, y, z) == Min3(x, z, y)
  {
    var a, b := Min3(x, y, z), Min3(x, z, y);
    assert Le(a, b) && Le(b, a);
  }

  lemma Min3Monotone(x: Cost, y: Cost, z: Cost, x': Cost, y': Cost, z': Cost)
    requires Le(x, x') && Le(y, y') && Le(z, z')
    ensures Le(Min3(x, y, z), Min3(x', y', z'))
  {
  }

  lemma {:induction false} SumSquaresSymmetric(a: seq<real>, b: seq<real>, k: nat)
    requires k <= |a| && k <= |b|
    ensures SumSquares(a, b, k) == SumSquares(b, a, k)
  {
    if k > 0 {
      SumSquaresSymmetric(a, b, k - 1);
      var d := a[k - 1] - b[k - 1];
      assert (b[k - 1] - a[k - 1]) * (b[k - 1] - a[k - 1]) == d * d;
    }
  }

  lemma {:induction false} SumAbsSymmetric(a: seq<real>, b: seq<real>, k: nat)
    requires k <= |a| && k <= |b|
    ensures SumAbs(a, b, k) == SumAbs(b, a, k)
  {
    if k > 0 {
      SumAbsSymmetric(a, b, k - 1);
    }
  }

  lemma {:induction false} SumsNonNegative(a: seq<real>, b: seq<real>, k: nat)
    requires k <= |a| && k <= |b|
    ensures 0.0 <= SumSquares(a, b, k) && 0.0 <= SumAbs(a, b, k)
  {
    if k > 0 {
      SumsNonNegative(a, b, k - 1);
      var d := a[k - 1] - b[k - 1];
      assert 0.0 <= d * d;
    }
  }

  lemma {:induction false} SumsOfSelf(a: seq<real>, k: nat)
    requires k <= |a|
    ensures SumSquares(a, a, k) == 0.0 && SumAbs(a, a, k) == 0.0
  {
    if k > 0 {
      SumsOfSelf(a, k - 1);
    }
  }

  /** Both metrics are symmetric in their two vectors. */
  lemma DistanceSymmetric(metric: Metric, sqrt: real -> real, a: seq<real>, b: seq<real>)
    ensures Distance(metric, sqrt, a, b) == Distance(metric, sqrt, b, a)
  {
    if |a| == |b| {
      SumSquaresSymmetric(a, b, |a|);
      SumAbsSymmetric(a, b, |a|);
    }
  }

  /** A vector is at distance 0 from itself. */
  lemma DistanceToSelf(metric: Metric, sqrt: real -> real, a: seq<real>)
    requires sqrt(0.0) == 0.0
    ensures Distance(metric, sqrt, a, a) == Finite(0.0)
  {
    SumsOfSelf(a, |a|);
  }

  lemma DistanceNonNegative(metric: Metric, sqrt: real -> real, a: seq<real>, b: seq<real>)
    requires SqrtLike(sqrt)
    ensures NonNegative(Distance(metric, sqrt, a, b))
  {
    if |a| == |b| {
      SumsNonNegative(a, b, |a|);
    }
  }

  // ---------------------------------------------------------------------
  // What the cost table means
  // ---------------------------------------------------------------------

  /** No cell of the cost table is negative. */
  lemma {:induction false} CostNonNegative(p: Problem, i: nat, j: nat)
    requires i <= |p.seq1| && j <= |p.seq2|
    requires SqrtLike(p.sqrt)
    ensures NonNegative(CostAt(p, i, j))
    decreases i + j
  {
    if i > 0 && j > 0 && InBand(p.band, |p.seq2|, i, j) {
      DistanceNonNegative(p.metric, p.sqrt, p.seq1[i - 1], p.seq2[j - 1]);
      CostNonNegative(p, i - 1, j - 1);
      CostNonNegative(p, i, j - 1);
      CostNonNegative(p, i - 1, j);
    }
  }

  /** With vectors of one size, every cell of the band has a finite cost. */
  lemma {:induction false} FiniteInBand(p: Problem, i: nat, j: nat)
    requires Comparable(p) && WidthOk(p)
    requires 1 <= i <= |p.seq1| && 1 <= j <= |p.seq2| && InBand(p.band, |p.seq2|, i, j)
    ensures CostAt(p, i, j).Finite?
    decreases i + j
  {
    var m := |p.seq2|;
    if i >= 2 && j >= 2 {
      assert InBand(p.band, m, i - 1, j - 1);
      FiniteInBand(p, i - 1, j - 1);
    } else if i >= 2 {
      assert InBand(p.band, m, i - 1, j);
      FiniteInBand(p, i - 1, j);
    } else if j >= 2 {
      assert InBand(p.band, m, i, j - 1);
      FiniteInBand(p, i, j - 1);
    }
  }

  /** The cell the recorded step points to holds the minimum the cell was built from. */
  lemma {:induction false} StepCost(p: Problem, i: nat, j: nat)
    requires 1 <= i <= |p.seq1| && 1 <= j <= |p.seq2| && InBand(p.band, |p.seq2|, i, j)
    ensures var next := BacktrackStep(StepAt(p, i, j), i, j);
      0 <= next.0 <= |p.seq1| && 0 <= next.1 <= |p.seq2| &&
      CostAt(p, next.0, next.1) == Min3(CostAt(p, i - 1, j - 1), CostAt(p, i, j - 1), CostAt(p, i - 1, j))
  {
    var d, h, v := CostAt(p, i - 1, j - 1), CostAt(p, i, j - 1), CostAt(p, i - 1, j);
    var s := TieBreak(d, h, v);
    assert StepAt(p, i, j) == s;
    if s == Diagonal {
      assert BacktrackStep(s, i, j) == (i - 1, j - 1);
    } else if s == Horizontal {
      assert BacktrackStep(s, i, j) == (i, j - 1);
    } else {
      assert BacktrackStep(s, i, j) == (i - 1, j);
    }
  }

  /** One step of PathFrom, with the neighbour named. */
  lemma PathFromUnfold(p: Problem, i: nat, j: nat) returns (next: (int, int))
    requires 1 <= i <= |p.seq1| && 1 <= j <= |p.seq2| && InBand(p.band, |p.seq2|, i, j)
    ensures next == BacktrackStep(StepAt(p, i, j), i, j)
    ensures 0 <= next.0 <= |p.seq1| && 0 <= next.1 <= |p.seq2|
    ensures next.0 == 0 || next.1 == 0 || InBand(p.band, |p.seq2|, next.0, next.1)
    ensures PathFrom(p, i, j) == PathFrom(p, next.0, next.1) + [(i - 1, j - 1)]
  {
    NextInBand(p, i, j);
    next := BacktrackStep(StepAt(p, i, j), i, j);
  }

  /**
   * From any cell of the band, the backtracked path is a warping path to that
   * cell, stays in the band, and its summed local cost is the cell's cost.
   */
  lemma {:induction false} PathFromSound(p: Problem, i: nat, j: nat)
    requires Comparable(p) && WidthOk(p)
    requires 1 <= i <= |p.seq1| && 1 <= j <= |p.seq2| && InBand(p.band, |p.seq2|, i, j)
    ensures IsWarpingPath(PathFrom(p, i, j), i, j)
    ensures WithinBand(p.band, |p.seq2|, PathFrom(p, i, j))
    ensures InRange(PathFrom(p, i, j), |p.seq1|, |p.seq2|) && PathCost(p, PathFrom(p, i, j)) == CostAt(p, i, j)
    decreases i + j
  {
    var next := PathFromUnfold(p, i, j);
    StepCost(p, i, j);
    FiniteInBand(p, i, j);
    var path := PathFrom(p, i, j);
    if next.0 == 0 || next.1 == 0 {
      assert CostAt(p, next.0, next.1).Finite?;
      assert next == (0, 0);
      OriginSound(p, path);
    } else {
      PathFromSound(p, next.0, next.1);
      ExtendSound(p, i, j, next, PathFrom(p, next.0, next.1), path);
    }
  }

  /** The first cell: its path is [(0, 0)] and costs the local cost of (0, 0). */
  lemma OriginSound(p: Problem, path: seq<(int, int)>)
    requires 1 <= |p.seq1| && 1 <= |p.seq2| && InBand(p.band, |p.seq2|, 1, 1)
    requires path == [(0, 0)]
    ensures IsWarpingPath(path, 1, 1) && WithinBand(p.band, |p.seq2|, path)
    ensures InRange(path, |p.seq1|, |p.seq2|) && PathCost(p, path) == CostAt(p, 1, 1)
  {
    PathCostSnoc(p, [], (0, 0));
    assert CostAt(p, 1, 1) == Add(Local(p, 0, 0), Finite(0.0));
  }

  /** Extending the path of a neighbour by the cell itself keeps the path sound. */
  lemma ExtendSound(p: Problem, i: nat, j: nat, next: (int, int), prefix: seq<(int, int)>, path: seq<(int, int)>)
    requires 1 <= i <= |p.seq1| && 1 <= j <= |p.seq2| && InBand(p.band, |p.seq2|, i, j)
    requires 1 <= next.0 <= |p.seq1| && 1 <= next.1 <= |p.seq2|
    requires Adjacent((next.0 - 1, next.1 - 1), (i - 1, j - 1))
    requires CostAt(p, next.0, next.1) == Min3(CostAt(p, i - 1, j - 1), CostAt(p, i, j - 1), CostAt(p, i - 1, j))
    requires IsWarpingPath(prefix, next.0, next.1) && WithinBand(p.band, |p.seq2|, prefix)
    requires InRange(prefix, |p.seq1|, |p.seq2|) && PathCost(p, prefix) == CostAt(p, next.0, next.1)
    requires path == prefix + [(i - 1, j - 1)]
    ensures IsWarpingPath(path, i, j) && WithinBand(p.band, |p.seq2|, path)
    ensures InRange(path, |p.seq1|, |p.seq2|) && PathCost(p, path) == CostAt(p, i, j)
  {
    ExtendWarping(p.band, |p.seq2|, prefix, next.0, next.1, i, j);
    PathCostSnoc(p, prefix, (i - 1, j - 1));
    var local := Local(p, i - 1, j - 1);
    var minCost := Min3(CostAt(p, i - 1, j - 1), CostAt(p, i, j - 1), CostAt(p, i - 1, j));
    assert CostAt(p, i, j) == Add(local, minCost);
    assert PathCost(p, path) == Add(minCost, local);
  }

  /** Appending the next cell of the band to a warping path in the band gives a warping path in the band. */
  lemma ExtendWarping(band: Option<int>, m: int, prefix: seq<(int, int)>, a: int, b: int, i: int, j: int)
    requires IsWarpingPath(prefix, a, b) && WithinBand(band, m, prefix)
    requires Adjacent((a - 1, b - 1), (i - 1, j - 1)) && InBand(band, m, i, j)
    ensures IsWarpingPath(prefix + [(i - 1, j - 1)], i, j)
    ensures WithinBand(band, m, prefix + [(i - 1, j - 1)])
  {
    var path := prefix + [(i - 1, j - 1)];
    forall k | 0 < k < |path|
      ensures Adjacent(path[k - 1], path[k])
    {
      if k < |path| - 1 {
        assert path[k - 1] == prefix[k - 1] && path[k] == prefix[k];
      }
    }
    forall k | 0 <= k < |path|
      ensures 0 <= path[k].0 < i && 0 <= path[k].1 < j
    {
      if k < |path| - 1 {
        assert path[k] == prefix[k];
      }
    }
    forall k | 0 <= k < |path|
      ensures InBand(band, m, path[k].0 + 1, path[k].1 + 1)
    {
      if k < |path| - 1 {
        assert path[k] == prefix[k];
      }
    }
  }

  lemma PathCostSnoc(p: Problem, prefix: seq<(int, int)>, x: (int, int))
    requires InRange(prefix, |p.seq1|, |p.seq2|)
    requires 0 <= x.0 < |p.seq1| && 0 <= x.1 < |p.seq2|
    ensures InRange(prefix + [x], |p.seq1|, |p.seq2|)
    ensures PathCost(p, prefix + [x]) == Add(PathCost(p, prefix), Local(p, x.0, x.1))
  {
    var path := prefix + [x];
    assert path[..|path| - 1] == prefix;
    forall k | 0 <= k < |path|
      ensures 0 <= path[k].0 < |p.seq1| && 0 <= path[k].1 < |p.seq2|
    {
      if k < |prefix| {
        assert path[k] == prefix[k];
      }
    }
  }

  /** No warping path inside the band is cheaper than the cost of the cell it ends in. */
  lemma {:induction false} NoCheaperPath(p: Problem, path: seq<(int, int)>, i: nat, j: nat)
    requires 1 <= i <= |p.seq1| && 1 <= j <= |p.seq2|
    requires IsWarpingPath(path, i, j) && WithinBand(p.band, |p.seq2|, path)
    ensures InRange(path, |p.seq1|, |p.seq2|) && Le(CostAt(p, i, j), PathCost(p, path))
    decreases |path|
  {
    if |path| == 1 {
      assert path == [(0, 0)];
      assert InBand(p.band, |p.seq2|, path[0].0 + 1, path[0].1 + 1);
      OriginSound(p, path);
    } else {
      var prefix, q := Prefix(p.band, |p.seq2|, path, i, j);
      NoCheaperPath(p, prefix, q.0 + 1, q.1 + 1);
      CellBelowPath(p, i, j, q, prefix, path);
    }
  }

  /** A warping path of two or more points is a warping path to its second-to-last point, plus one move. */
  lemma Prefix(band: Option<int>, m: int, path: seq<(int, int)>, i: int, j: int)
    returns (prefix: seq<(int, int)>, q: (int, int))
    requires IsWarpingPath(path, i, j) && WithinBand(band, m, path) && |path| >= 2
    ensures path == prefix + [(i - 1, j - 1)] && 0 <= q.0 && 0 <= q.1
    ensures Adjacent(q, (i - 1, j - 1)) && InBand(band, m, i, j)
    ensures IsWarpingPath(prefix, q.0 + 1, q.1 + 1) && WithinBand(band, m, prefix)
  {
    prefix, q := path[..|path| - 1], path[|path| - 2];
    assert path == prefix + [path[|path| - 1]];
    assert Adjacent(q, path[|path| - 1]);
    assert InBand(band, m, path[|path| - 1].0 + 1, path[|path| - 1].1 + 1);
    forall k | 0 < k < |prefix|
      ensures Adjacent(prefix[k - 1], prefix[k])
    {
      assert prefix[k - 1] == path[k - 1] && prefix[k] == path[k];
    }
    forall k | 0 <= k < |prefix|
      ensures 0 <= prefix[k].0 < q.0 + 1 && 0 <= prefix[k].1 < q.1 + 1
      ensures InBand(band, m, prefix[k].0 + 1, prefix[k].1 + 1)
    {
      assert prefix[k] == path[k];
      PathBelowEnd(path, i, j, k, |path| - 2);
    }
  }

  /** The recurrence: a cell costs no more than any path through one of its three neighbours. */
  lemma CellBelowPath(p: Problem, i: nat, j: nat, q: (int, int), prefix: seq<(int, int)>, path: seq<(int, int)>)
    requires 1 <= i <= |p.seq1| && 1 <= j <= |p.seq2| && InBand(p.band, |p.seq2|, i, j)
    requires 0 <= q.0 && 0 <= q.1 && Adjacent(q, (i - 1, j - 1))
    requires InRange(prefix, |p.seq1|, |p.seq2|) && Le(CostAt(p, q.0 + 1, q.1 + 1), PathCost(p, prefix))
    requires path == prefix + [(i - 1, j - 1)]
    ensures InRange(path, |p.seq1|, |p.seq2|) && Le(CostAt(p, i, j), PathCost(p, path))
  {
    PathCostSnoc(p, prefix, (i - 1, j - 1));
    var local := Local(p, i - 1, j - 1);
    var d, h, v := CostAt(p, i - 1, j - 1), CostAt(p, i, j - 1), CostAt(p, i - 1, j);
    assert CostAt(p, i, j) == Add(local, Min3(d, h, v));
    var c := CostAt(p, q.0 + 1, q.1 + 1);
    assert c == d || c == h || c == v;
    assert Le(Min3(d, h, v), PathCost(p, prefix));
  }

  /** Along a warping path the coordinates never decrease. */
  lemma {:induction false} PathBelowEnd(path: seq<(int, int)>, n: int, m: int, k: nat, l: nat)
    requires IsWarpingPath(path, n, m)
    requires k <= l < |path|
    ensures path[k].0 <= path[l].0 && path[k].1 <= path[l].1
    decreases l - k
  {
    if k < l {
      PathBelowEnd(path, n, m, k, l - 1);
      assert Adjacent(path[l - 1], path[l]);
    }
  }

  /** After k moves a warping path has advanced by at least max and at most the sum of its coordinates. */
  lemma {:induction false} PathProgress(path: seq<(int, int)>, n: int, m: int, k: nat)
    requires IsWarpingPath(path, n, m)
    requires k < |path|
    ensures MaxInt(path[k].0, path[k].1) <= k <= path[k].0 + path[k].1
  {
    if k > 0 {
      PathProgress(path, n, m, k - 1);
      assert Adjacent(path[k - 1], path[k]);
    }
  }

  /** A warping path of n with m vectors has between max(n, m) and n + m - 1 points. */
  lemma WarpingPathLength(path: seq<(int, int)>, n: int, m: int)
    requires IsWarpingPath(path, n, m)
    ensures MaxInt(n, m) <= |path| <= n + m - 1
  {
    PathProgress(path, n, m, |path| - 1);
  }

  /**
   * Dynamic time warping is optimal: with vectors of one size and the final
   * cell inside the band, the aligner's path is a warping path in the band,
   * its cost is the reported distance, and no warping path in the band costs
   * less.
   */
  lemma AlignIsOptimal(p: Problem)
    requires Comparable(p) && Reaches(p)
    requires |p.seq1| > 0 && |p.seq2| > 0
    ensures Align(p).distance.Finite?
    ensures IsWarpingPath(Align(p).path, |p.seq1|, |p.seq2|)
    ensures WithinBand(p.band, |p.seq2|, Align(p).path)
    ensures PathCost(p, Align(p).path) == Align(p).distance
    ensures forall path :: IsWarpingPath(path, |p.seq1|, |p.seq2|) && WithinBand(p.band, |p.seq2|, path) ==>
      Le(Align(p).distance, PathCost(p, path))
  {
    var n, m := |p.seq1|, |p.seq2|;
    assert InBand(p.band, m, n, m);
    PathFromSound(p, n, m);
    FiniteInBand(p, n, m);
    forall path | IsWarpingPath(path, n, m) && WithinBand(p.band, m, path)
      ensures Le(Align(p).distance, PathCost(p, path))
    {
      NoCheaperPath(p, path, n, m);
    }
  }

  /** The path's length, and so the normalised distance's divisor, lies between max(n, m) and n + m - 1. */
  lemma AlignPathLength(p: Problem)
    requires Comparable(p) && Reaches(p)
    requires |p.seq1| > 0 && |p.seq2| > 0
    ensures MaxInt(|p.seq1|, |p.seq2|) <= |Align(p).path| <= |p.seq1| + |p.seq2| - 1
    ensures Le(Normalized(Align(p)), Align(p).distance) || !SqrtLike(p.sqrt)
  {
    var n, m := |p.seq1|, |p.seq2|;
    assert InBand(p.band, m, n, m);
    PathFromSound(p, n, m);
    FiniteInBand(p, n, m);
    var r := Align(p);
    assert r == DTWResult(CostAt(p, n, m), PathFrom(p, n, m));
    WarpingPathLength(r.path, n, m);
    if SqrtLike(p.sqrt) {
      CostNonNegative(p, n, m);
      ShrinkByCount(r.distance.r, |r.path|);
    }
  }

  /** Dividing a non-negative value by a positive count does not increase it. */
  lemma ShrinkByCount(d: real, k: int)
    requires 0.0 <= d && 1 <= k
    ensures d / k as real <= d
  {
    assert d / k as real * k as real == d;
    assert 1.0 <= k as real;
  }

  /** A diagonal neighbour of cost 0 is the minimum of the three neighbours, and the diagonal step wins. */
  lemma ZeroCornerIsMin(p: Problem, i: nat, j: nat)
    requires SqrtLike(p.sqrt)
    requires 1 <= i <= |p.seq1| && 1 <= j <= |p.seq2| && CostAt(p, i - 1, j - 1) == Finite(0.0)
    ensures Min3(CostAt(p, i - 1, j - 1), CostAt(p, i, j - 1), CostAt(p, i - 1, j)) == Finite(0.0)
    ensures TieBreak(CostAt(p, i - 1, j - 1), CostAt(p, i, j - 1), CostAt(p, i - 1, j)) == Diagonal
  {
    CostNonNegative(p, i, j - 1);
    CostNonNegative(p, i - 1, j);
  }

  /** Along the diagonal of a sequence aligned with itself every cell is in the band and costs 0. */
  lemma {:induction false} DiagonalCostOfSelf(p: Problem, i: nat)
    requires p.seq2 == p.seq1 && SqrtLike(p.sqrt) && WidthOk(p)
    requires i <= |p.seq1|
    ensures i >= 1 ==> InBand(p.band, |p.seq2|, i, i)
    ensures CostAt(p, i, i) == Finite(0.0)
  {
    if i >= 1 {
      DiagonalCostOfSelf(p, i - 1);
      assert InBand(p.band, |p.seq2|, i, i);
      DistanceToSelf(p.metric, p.sqrt, p.seq1[i - 1]);
      ZeroCornerIsMin(p, i, i);
      assert CostAt(p, i, i) == Add(Local(p, i - 1, i - 1), Min3(CostAt(p, i - 1, i - 1), CostAt(p, i, i - 1), CostAt(p, i - 1, i)));
    }
  }

  /** From a diagonal cell of a sequence aligned with itself, backtracking steps to the previous diagonal cell. */
  lemma DiagonalPathStep(p: Problem, i: nat)
    requires p.seq2 == p.seq1 && SqrtLike(p.sqrt) && WidthOk(p)
    requires 1 <= i <= |p.seq1|
    ensures InBand(p.band, |p.seq2|, i, i)
    ensures PathFrom(p, i, i) == PathFrom(p, i - 1, i - 1) + [(i - 1, i - 1)]
  {
    DiagonalCostOfSelf(p, i);
    DiagonalCostOfSelf(p, i - 1);
    ZeroCornerIsMin(p, i, i);
    assert StepAt(p, i, i) == Diagonal;
    assert BacktrackStep(StepAt(p, i, i), i, i) == (i - 1, i - 1);
  }

  /** Along the diagonal of a sequence aligned with itself the backtracked path is diagonal. */
  lemma {:induction false} DiagonalOfSelf(p: Problem, i: nat)
    requires p.seq2 == p.seq1 && SqrtLike(p.sqrt) && WidthOk(p)
    requires i <= |p.seq1|
    ensures PathFrom(p, i, i) == DiagonalPath(i)
  {
    if i >= 1 {
      DiagonalOfSelf(p, i - 1);
      DiagonalPathStep(p, i);
      DiagonalSnoc(i);
      calc {
        PathFrom(p, i, i);
        PathFrom(p, i - 1, i - 1) + [(i - 1, i - 1)];
        DiagonalPath(i - 1) + [(i - 1, i - 1)];
        DiagonalPath(i);
      }
    } else {
      assert DiagonalPath(i) == [];
    }
  }

  /** The purely diagonal path (0, 0), ..., (n - 1, n - 1). */
  function DiagonalPath(n: nat): seq<(int, int)>
  {
    seq(n, k => (k, k))
  }

  /** The diagonal of length i extends the diagonal of length i - 1 by (i - 1, i - 1). */
  lemma DiagonalSnoc(i: nat)
    requires i >= 1
    ensures DiagonalPath(i) == DiagonalPath(i - 1) + [(i - 1, i - 1)]
  {
    var diag, shorter := DiagonalPath(i), DiagonalPath(i - 1);
    assert |diag| == |shorter + [(i - 1, i - 1)]|;
    forall k | 0 <= k < i
      ensures diag[k] == (shorter + [(i - 1, i - 1)])[k]
    {
    }
  }

  /**
   * A non-empty sequence aligned with itself has distance 0, normalised
   * distance 0 and the purely diagonal path (0, 0), ..., (n-1, n-1).
   */
  lemma SelfAlignment(p: Problem)
    requires p.seq2 == p.seq1 && |p.seq1| > 0
    requires SqrtLike(p.sqrt) && WidthOk(p)
    ensures Align(p).distance == Finite(0.0)
    ensures Align(p).path == DiagonalPath(|p.seq1|)
    ensures Normalized(Align(p)) == Finite(0.0)
  {
    DiagonalCostOfSelf(p, |p.seq1|);
    DiagonalOfSelf(p, |p.seq1|);
  }

  /** The same problem with the two sequences exchanged. */
  function Swap(p: Problem): Problem
  {
    Problem(p.seq2, p.seq1, p.metric, p.band, p.sqrt)
  }

  lemma {:induction false} CostSymmetric(p: Problem, i: nat, j: nat)
    requires i <= |p.seq1| && j <= |p.seq2|
    ensures CostAt(Swap(p), j, i) == CostAt(p, i, j)
    decreases i + j
  {
    if i > 0 && j > 0 {
      assert InBand(p.band, |p.seq1|, j, i) <==> InBand(p.band, |p.seq2|, i, j);
      if InBand(p.band, |p.seq2|, i, j) {
        var q := Swap(p);
        DistanceSymmetric(p.metric, p.sqrt, p.seq1[i - 1], p.seq2[j - 1]);
        assert Local(q, j - 1, i - 1) == Local(p, i - 1, j - 1);
        CostSymmetric(p, i - 1, j - 1);
        CostSymmetric(p, i, j - 1);
        CostSymmetric(p, i - 1, j);
        var d, h, v := CostAt(p, i - 1, j - 1), CostAt(p, i, j - 1), CostAt(p, i - 1, j);
        assert CostAt(q, j, i) == Add(Local(q, j - 1, i - 1), Min3(d, v, h));
        Min3Swap(d, h, v);
      }
    }
  }

  /** Exchanging the two sequences leaves the distance unchanged, for either metric and any band. */
  lemma AlignSymmetric(p: Problem)
    ensures Align(Swap(p)).distance == Align(p).distance
  {
    var n, m := |p.seq1|, |p.seq2|;
    if n > 0 && m > 0 {
      assert InBand(p.band, n, m, n) <==> InBand(p.band, m, n, m);
      CostSymmetric(p, n, m);
    }
  }

  /** A band never lowers a cell's cost below the unconstrained one. */
  lemma {:induction false} BandNeverLowersCost(p: Problem, i: nat, j: nat)
    requires i <= |p.seq1| && j <= |p.seq2|
    ensures Le(CostAt(p.(band := None), i, j), CostAt(p, i, j))
    decreases i + j
  {
    if i > 0 && j > 0 && InBand(p.band, |p.seq2|, i, j) {
      BandNeverLowersCost(p, i - 1, j - 1);
      BandNeverLowersCost(p, i, j - 1);
      BandNeverLowersCost(p, i - 1, j);
      var q := p.(band := None);
      Min3Monotone(CostAt(q, i - 1, j - 1), CostAt(q, i, j - 1), CostAt(q, i - 1, j),
                   CostAt(p, i - 1, j - 1), CostAt(p, i, j - 1), CostAt(p, i - 1, j));
      assert Local(q, i - 1, j - 1) == Local(p, i - 1, j - 1);
      assert CostAt(q, i, j) == Add(Local(q, i - 1, j - 1), Min3(CostAt(q, i - 1, j - 1), CostAt(q, i, j - 1), CostAt(q, i - 1, j)));
      assert CostAt(p, i, j) == Add(Local(p, i - 1, j - 1), Min3(CostAt(p, i - 1, j - 1), CostAt(p, i, j - 1), CostAt(p, i - 1, j)));
    }
  }

  /** The banded distance is at least the unconstrained distance on the same inputs. */
  lemma BandedNeverBelow(p: Problem)
    ensures Le(Align(p.(band := None)).distance, Align(p).distance)
  {
    if |p.seq1| > 0 && |p.seq2| > 0 {
      BandNeverLowersCost(p, |p.seq1|, |p.seq2|);
    }
  }

  /**
   * As written, the banded backtracking never exits when the final cell lies
   * outside the band: that cell keeps the code -1, and a turn of the loop on
   * -1 leaves both indices, and so the loop condition, as they were. Each
   * turn still appends a point to the path, so it runs until memory runs out.
   */
  lemma BacktrackStallsOutsideBand(p: Problem)
    requires |p.seq1| > 0 && |p.seq2| > 0 && !Reaches(p)
    ensures StepAt(p, |p.seq1|, |p.seq2|) == Unset
    ensures BacktrackStep(StepAt(p, |p.seq1|, |p.seq2|), |p.seq1|, |p.seq2|) == (|p.seq1|, |p.seq2|)
    ensures Align(p) == DTWResult(Infinity, [])
  {
  }

  // ---------------------------------------------------------------------
  // The aligner
  // ---------------------------------------------------------------------

  /** The backtracked points come out last first; std::reverse puts them in order. */
  function Reversed<T>(s: seq<T>): (r: seq<T>)
    ensures |r| == |s|
    ensures forall k :: 0 <= k < |s| ==> r[k] == s[|s| - 1 - k]
  {
    if s == [] then [] else [s[|s| - 1]] + Reversed(s[..|s| - 1])
  }

  /** Moving the last element of a prefix onto the reversed suffix keeps the whole. */
  lemma MoveToReversed<T>(a: seq<T>, x: T, rev: seq<T>)
    ensures (a + [x]) + Reversed(rev) == a + Reversed(rev + [x])
  {
    ReversedSnoc(rev, x);
    assert (a + [x]) + Reversed(rev) == a + ([x] + Reversed(rev));
  }

  lemma ReversedSnoc<T>(s: seq<T>, x: T)
    ensures Reversed(s + [x]) == [x] + Reversed(s)
  {
    var a, b := Reversed(s + [x]), [x] + Reversed(s);
    assert |a| == |b|;
    forall k | 0 <= k < |a|
      ensures a[k] == b[k]
    {
      if k > 0 {
        assert a[k] == (s + [x])[|s| - k];
      }
    }
  }

  class DynamicTimeWarping {
    /** The cumulative-cost table of the last alignment. */
    var costMatrix: array2<Cost>
    /** The direction table of the last alignment. */
    var pathMatrix: array2<Step>

    constructor ()
      ensures costMatrix.Length0 == 0 && costMatrix.Length1 == 0
      ensures pathMatrix.Length0 == 0 && pathMatrix.Length1 == 0
    {
      costMatrix := new Cost[0, 0];
      pathMatrix := new Step[0, 0];
    }

    /** The two tables hold the cost and the direction of every cell of p. */
    ghost predicate Tables(p: Problem)
      reads this, costMatrix, pathMatrix
    {
      costMatrix.Length0 == |p.seq1| + 1 && costMatrix.Length1 == |p.seq2| + 1 &&
      pathMatrix.Length0 == |p.seq1| + 1 && pathMatrix.Length1 == |p.seq2| + 1 &&
      forall i, j :: 0 <= i <= |p.seq1| && 0 <= j <= |p.seq2| ==>
        costMatrix[i, j] == CostAt(p, i, j) && pathMatrix[i, j] == StepAt(p, i, j)
    }

    method EuclideanDistance(a: seq<real>, b: seq<real>, sqrt: real -> real) returns (d: Cost)
      ensures d == Distance(Euclidean, sqrt, a, b)
    {
      if |a| != |b| {
        return Infinity;
      }
      var sum := 0.0;
      var i := 0;
      while i < |a|
        invariant 0 <= i <= |a|
        invariant sum == SumSquares(a, b, i)
      {
        var diff := a[i] - b[i];
        sum := sum + diff * diff;
        i := i + 1;
      }
      return Finite(sqrt(sum));
    }

    method ManhattanDistance(a: seq<real>, b: seq<real>) returns (d: Cost)
      ensures d == Distance(Manhattan, x => x, a, b)
    {
      if |a| != |b| {
        return Infinity;
      }
      var sum := 0.0;
      var i := 0;
      while i < |a|
        invariant 0 <= i <= |a|
        invariant sum == SumAbs(a, b, i)
      {
        sum := sum + Abs(a[i] - b[i]);
        i := i + 1;
      }
      return Finite(sum);
    }

    /** Cell (a, b) of both tables holds its final value. */
    ghost predicate Done(p: Problem, a: int, b: int)
      requires 0 <= a < costMatrix.Length0 && 0 <= b < costMatrix.Length1
      requires 0 <= a < pathMatrix.Length0 && 0 <= b < pathMatrix.Length1
      requires a <= |p.seq1| && b <= |p.seq2|
      reads this, costMatrix, pathMatrix
    {
      costMatrix[a, b] == CostAt(p, a, b) && pathMatrix[a, b] == StepAt(p, a, b)
    }

    /** Cell (a, b) of both tables still holds its initial value. */
    ghost predicate Untouched(a: int, b: int)
      requires 0 <= a < costMatrix.Length0 && 0 <= b < costMatrix.Length1
      requires 0 <= a < pathMatrix.Length0 && 0 <= b < pathMatrix.Length1
      reads this, costMatrix, pathMatrix
    {
      costMatrix[a, b] == Infinity && pathMatrix[a, b] == Unset
    }

    /** One cell of the band: local cost plus the cheapest neighbour, and the direction it came from. */
    method FillCell(p: Problem, i: int, j: int)
      requires costMatrix.Length0 == |p.seq1| + 1 && costMatrix.Length1 == |p.seq2| + 1
      requires pathMatrix.Length0 == |p.seq1| + 1 && pathMatrix.Length1 == |p.seq2| + 1
      requires 1 <= i <= |p.seq1| && 1 <= j <= |p.seq2| && InBand(p.band, |p.seq2|, i, j)
      requires Done(p, i - 1, j - 1) && Done(p, i, j - 1) && Done(p, i - 1, j)
      modifies costMatrix, pathMatrix
      ensures Done(p, i, j)
      ensures forall a, b :: 0 <= a <= |p.seq1| && 0 <= b <= |p.seq2| && (a != i || b != j) ==>
        costMatrix[a, b] == old(costMatrix[a, b]) && pathMatrix[a, b] == old(pathMatrix[a, b])
      ensures forall a, b :: 0 <= a <= |p.seq1| && 0 <= b <= |p.seq2| && (a != i || b != j) ==>
        (old(Done(p, a, b)) ==> Done(p, a, b)) && (old(Untouched(a, b)) ==> Untouched(a, b))
    {
      var cost;
      if p.metric == Manhattan {
        cost := ManhattanDistance(p.seq1[i - 1], p.seq2[j - 1]);
      } else {
        cost := EuclideanDistance(p.seq1[i - 1], p.seq2[j - 1], p.sqrt);
      }
      var match_ := costMatrix[i - 1, j - 1];
      var insertion := costMatrix[i, j - 1];
      var deletion := costMatrix[i - 1, j];
      var minCost := Min3(match_, insertion, deletion);
      costMatrix[i, j] := Add(cost, minCost);
      if minCost == match_ {
        pathMatrix[i, j] := Diagonal;
      } else if minCost == insertion {
        pathMatrix[i, j] := Horizontal;
      } else {
        pathMatrix[i, j] := Vertical;
      }
    }

    /**
     * The nested loops that fill both tables: row by row, and in each row the
     * columns of the band, from freshly initialised tables.
     */
    method Fill(p: Problem)
      requires costMatrix.Length0 == |p.seq1| + 1 && costMatrix.Length1 == |p.seq2| + 1
      requires pathMatrix.Length0 == |p.seq1| + 1 && pathMatrix.Length1 == |p.seq2| + 1
      requires Done(p, 0, 0)
      requires forall a, b :: 0 <= a <= |p.seq1| && 0 <= b <= |p.seq2| && (a != 0 || b != 0) ==> Untouched(a, b)
      modifies costMatrix, pathMatrix
      ensures Tables(p)
    {
      var n, m := |p.seq1|, |p.seq2|;
      forall b | 0 <= b <= m
        ensures Done(p, 0, b)
      {
        if b != 0 {
          assert Untouched(0, b);
        }
      }
      var i := 1;
      while i <= n
        invariant 1 <= i <= n + 1
        invariant forall a, b :: 0 <= a < i && 0 <= b <= m ==> Done(p, a, b)
        invariant forall a, b :: i <= a <= n && 0 <= b <= m ==> Untouched(a, b)
      {
        var jStart, jEnd := BandStart(p.band, i), BandEnd(p.band, m, i);
        forall b | 0 <= b < jStart && b <= m
          ensures Done(p, i, b)
        {
          assert Untouched(i, b);
        }
        var j := jStart;
        while j <= jEnd
          invariant jStart <= j && (j <= jEnd + 1 || j == jStart)
          invariant forall a, b :: 0 <= a < i && 0 <= b <= m ==> Done(p, a, b)
          invariant forall b :: 0 <= b < j && b <= m ==> Done(p, i, b)
          invariant forall a, b :: i <= a <= n && j <= b <= m ==> Untouched(a, b)
          invariant forall a, b :: i < a <= n && 0 <= b <= m ==> Untouched(a, b)
        {
          FillCell(p, i, j);
          j := j + 1;
        }
        forall b | j <= b <= m
          ensures Done(p, i, b)
        {
          assert Untouched(i, b);
        }
        i := i + 1;
      }
      forall a, b | 0 <= a <= n && 0 <= b <= m
        ensures costMatrix[a, b] == CostAt(p, a, b) && pathMatrix[a, b] == StepAt(p, a, b)
      {
        assert Done(p, a, b);
      }
    }

    /** The backtracking loop: from (n, m) follow the recorded steps to the border, then reverse. */
    method Backtrack(p: Problem) returns (path: seq<(int, int)>)
      requires Tables(p)
      requires |p.seq1| > 0 && |p.seq2| > 0 && InBand(p.band, |p.seq2|, |p.seq1|, |p.seq2|)
      ensures path == PathFrom(p, |p.seq1|, |p.seq2|)
    {
      var rev: seq<(int, int)> := [];
      var i, j := |p.seq1|, |p.seq2|;
      while i > 0 && j > 0
        invariant 0 <= i <= |p.seq1| && 0 <= j <= |p.seq2|
        invariant i == 0 || j == 0 || InBand(p.band, |p.seq2|, i, j)
        invariant PathFrom(p, |p.seq1|, |p.seq2|) == PathFrom(p, i, j) + Reversed(rev)
        decreases i + j
      {
        ghost var next := PathFromUnfold(p, i, j);
        MoveToReversed(PathFrom(p, next.0, next.1), (i - 1, j - 1), rev);
        rev := rev + [(i - 1, j - 1)];
        assert pathMatrix[i, j] == StepAt(p, i, j);
        var step := BacktrackStep(pathMatrix[i, j], i, j);
        i, j := step.0, step.1;
      }
      path := Reversed(rev);
    }

    /**
     * The body shared by compute and computeConstrained. When (n, m) lies
     * outside the band it returns +infinity and no path instead of entering
     * the backtracking loop (BacktrackStallsOutsideBand).
     */
    method Run(p: Problem) returns (result: DTWResult)
      modifies this
      ensures result == Align(p)
      ensures |p.seq1| == 0 || |p.seq2| == 0 ==> costMatrix == old(costMatrix) && pathMatrix == old(pathMatrix)
      ensures |p.seq1| > 0 && |p.seq2| > 0 ==> fresh(costMatrix) && fresh(pathMatrix) && Tables(p)
    {
      var n, m := |p.seq1|, |p.seq2|;
      if n == 0 || m == 0 {
        return DTWResult(Infinity, []);
      }
      costMatrix := new Cost[n + 1, m + 1]((_, _) => Infinity);
      pathMatrix := new Step[n + 1, m + 1]((_, _) => Unset);
      costMatrix[0, 0] := Finite(0.0);
      assert Done(p, 0, 0);
      Fill(p);
      if !InBand(p.band, m, n, m) {
        return DTWResult(Infinity, []);
      }
      var path := Backtrack(p);
      result := DTWResult(costMatrix[n, m], path);
    }

    /** Unconstrained alignment with the metric named by distanceMetric. */
    method Compute(seq1: seq<seq<real>>, seq2: seq<seq<real>>, distanceMetric: string, sqrt: real -> real)
      returns (result: DTWResult)
      modifies this
      ensures result == Align(Problem(seq1, seq2, MetricNamed(distanceMetric), None, sqrt))
      ensures |seq1| == 0 || |seq2| == 0 ==> costMatrix == old(costMatrix) && pathMatrix == old(pathMatrix)
      ensures |seq1| > 0 && |seq2| > 0 ==>
        fresh(costMatrix) && fresh(pathMatrix) && Tables(Problem(seq1, seq2, MetricNamed(distanceMetric), None, sqrt))
    {
      result := Run(Problem(seq1, seq2, MetricNamed(distanceMetric), None, sqrt));
    }

    /** Euclidean alignment restricted to the Sakoe-Chiba band of the given width. */
    method ComputeConstrained(seq1: seq<seq<real>>, seq2: seq<seq<real>>, windowSize: int, sqrt: real -> real)
      returns (result: DTWResult)
      modifies this
      ensures result == Align(Problem(seq1, seq2, Euclidean, Some(windowSize), sqrt))
      ensures |seq1| == 0 || |seq2| == 0 ==> costMatrix == old(costMatrix) && pathMatrix == old(pathMatrix)
      ensures |seq1| > 0 && |seq2| > 0 ==>
        fresh(costMatrix) && fresh(pathMatrix) && Tables(Problem(seq1, seq2, Euclidean, Some(windowSize), sqrt))
      ensures |seq1| > 0 && |seq2| > 0 ==>
        forall i, j :: 1 <= i <= |seq1| && 0 <= j <= |seq2| && (j < MaxInt(1, i - windowSize) || MinInt(|seq2|, i + windowSize) < j) ==>
          costMatrix[i, j] == Infinity
    {
      result := Run(Problem(seq1, seq2, Euclidean, Some(windowSize), sqrt));
    }

    /** The Euclidean distance divided by the length of the path, when there is one. */
    method ComputeNormalizedDistance(seq1: seq<seq<real>>, seq2: seq<seq<real>>, sqrt: real -> real)
      returns (d: Cost)
      modifies this
      ensures d == Normalized(Align(Problem(seq1, seq2, Euclidean, None, sqrt)))
    {
      assert "euclidean"[0] != "manhattan"[0];
      var result := Compute(seq1, seq2, "euclidean", sqrt);
      var pathLength := |result.path|;
      if pathLength > 0 {
        d := Div(result.distance, pathLength);
      } else {
        d := result.distance;
      }
    }
  }

  // ---------------------------------------------------------------------
  // The C entry points
  // ---------------------------------------------------------------------

  /** What the entry points assume of their buffers once the dimensions agree. */
  predicate BuffersFit(seq1: seq<real>, seq1Len: int, seq2: seq<real>, seq2Len: int, dim: int)
  {
    0 <= seq1Len && 0 <= seq2Len && 0 <= dim && seq1Len * dim <= |seq1| && seq2Len * dim <= |seq2|
  }

  /** The Euclidean problem the entry points build from two row-major buffers. */
  function FlatProblem(seq1: seq<real>, seq1Len: int, seq2: seq<real>, seq2Len: int, dim: int, sqrt: real -> real): Problem
    requires BuffersFit(seq1, seq1Len, seq2, seq2Len, dim)
  {
    Layout.RowStartIsProduct(seq1Len, dim);
    Layout.RowStartIsProduct(seq2Len, dim);
    Problem(Layout.Unflattened(seq1, seq1Len, dim), Layout.Unflattened(seq2, seq2Len, dim), Euclidean, None, sqrt)
  }

  /**
   * Row i of each sequence is the i-th block of dim values of its buffer, so
   * all vectors have the size dim and the problem is comparable.
   */
  lemma FlatProblemLayout(seq1: seq<real>, seq1Len: int, seq2: seq<real>, seq2Len: int, dim: int, sqrt: real -> real)
    requires BuffersFit(seq1, seq1Len, seq2, seq2Len, dim)
    ensures var p := FlatProblem(seq1, seq1Len, seq2, seq2Len, dim, sqrt);
      |p.seq1| == seq1Len && |p.seq2| == seq2Len && Comparable(p) &&
      (forall i, j :: 0 <= i < seq1Len && 0 <= j < dim ==>
        Layout.Offset(i, j, dim) < |seq1| && p.seq1[i][j] == seq1[Layout.Offset(i, j, dim)]) &&
      (forall i, j :: 0 <= i < seq2Len && 0 <= j < dim ==>
        Layout.Offset(i, j, dim) < |seq2| && p.seq2[i][j] == seq2[Layout.Offset(i, j, dim)])
  {
    Layout.RowStartIsProduct(seq1Len, dim);
    Layout.RowStartIsProduct(seq2Len, dim);
    Layout.UnflattenedAt(seq1, seq1Len, dim);
    Layout.UnflattenedAt(seq2, seq2Len, dim);
  }

  /** Exchanging the two buffers of the entry point leaves the distance unchanged. */
  lemma FlatDistanceSymmetric(seq1: seq<real>, seq1Len: int, seq2: seq<real>, seq2Len: int, dim: int, sqrt: real -> real)
    requires BuffersFit(seq1, seq1Len, seq2, seq2Len, dim)
    ensures BuffersFit(seq2, seq2Len, seq1, seq1Len, dim)
    ensures Align(FlatProblem(seq2, seq2Len, seq1, seq1Len, dim, sqrt)).distance
         == Align(FlatProblem(seq1, seq1Len, seq2, seq2Len, dim, sqrt)).distance
  {
    AlignSymmetric(FlatProblem(seq1, seq1Len, seq2, seq2Len, dim, sqrt));
  }

  /** compute_dtw_distance: +infinity when the dimensions differ, else the Euclidean distance. */
  method ComputeDtwDistance(seq1: seq<real>, seq1Len: int, featureDim1: int,
                            seq2: seq<real>, seq2Len: int, featureDim2: int, sqrt: real -> real)
    returns (d: Cost)
    requires featureDim1 == featureDim2 ==> BuffersFit(seq1, seq1Len, seq2, seq2Len, featureDim1)
    ensures featureDim1 != featureDim2 ==> d == Infinity
    ensures featureDim1 == featureDim2 ==>
      d == Align(FlatProblem(seq1, seq1Len, seq2, seq2Len, featureDim1, sqrt)).distance
  {
    if featureDim1 != featureDim2 {
      return Infinity;
    }
    var sequence1 := Layout.Unflatten(seq1, seq1Len, featureDim1);
    var sequence2 := Layout.Unflatten(seq2, seq2Len, featureDim2);
    var dtw := new DynamicTimeWarping();
    assert "euclidean"[0] != "manhattan"[0];
    var result := dtw.Compute(sequence1, sequence2, "euclidean", sqrt);
    d := result.distance;
  }

  /** compute_normalized_dtw: +infinity when the dimensions differ, else the normalised distance. */
  method ComputeNormalizedDtw(seq1: seq<real>, seq1Len: int, featureDim1: int,
                              seq2: seq<real>, seq2Len: int, featureDim2: int, sqrt: real -> real)
    returns (d: Cost)
    requires featureDim1 == featureDim2 ==> BuffersFit(seq1, seq1Len, seq2, seq2Len, featureDim1)
    ensures featureDim1 != featureDim2 ==> d == Infinity
    ensures featureDim1 == featureDim2 ==>
      d == Normalized(Align(FlatProblem(seq1, seq1Len, seq2, seq2Len, featureDim1, sqrt)))
  {
    if featureDim1 != featureDim2 {
      return Infinity;
    }
    var sequence1 := Layout.Unflatten(seq1, seq1Len, featureDim1);
    var sequence2 := Layout.Unflatten(seq2, seq2Len, featureDim2);
    var dtw := new DynamicTimeWarping();
    d := dtw.ComputeNormalizedDistance(sequence1, sequence2, sqrt);
  }
}
