/**
 * Hidden Markov model decoding (hmm.cpp).
 *
 * All scores live in the natural-log domain, so a probability of 0 is
 * -infinity. Viterbi fills a max-plus lattice delta with argmax back-pointers
 * psi and backtracks the most likely state path; forward and backward fill
 * the same lattice shape with logSum in place of max.
 *
 * The specification is the family of functions Delta, Psi, Alpha and Beta,
 * one lattice cell at a time; the class HiddenMarkovModel fills its
 * lattices cell by cell and is proved to produce exactly those cells. The
 * lemmas then say what the rows mean: the Viterbi path follows the
 * back-pointers, its score is the reported probability, no state sequence
 * scores higher, and the forward total is never below it.
 *
 * std::log, std::exp and their combination in logSum are not modelled; they
 * are the parameter LogMaths.
 */
module Hmm {
  import Layout

  /** A log-probability in double arithmetic: a finite value or -infinity. */
  datatype LogProb = NegInf | Log(r: real)

  /** Addition in double arithmetic: -infinity absorbs every other value. */
  function Add(x: LogProb, y: LogProb): (z: LogProb)
    ensures z.NegInf? <==> x.NegInf? || y.NegInf?
  {
    if x.Log? && y.Log? then Log(x.r + y.r) else NegInf
  }

  /** The order of the extended reals: -infinity is below every finite value. */
  predicate Le(x: LogProb, y: LogProb)
  {
    x.NegInf? || (y.Log? && x.r <= y.r)
  }

  lemma AddMonotone(x: LogProb, y: LogProb, z: LogProb)
    requires Le(x, y)
    ensures Le(Add(x, z), Add(y, z))
  {
  }

  /** The comparison `x > y` of the source; false whenever x is -infinity. */
  predicate Gt(x: LogProb, y: LogProb)
  {
    !Le(x, y)
  }

  /**
   * The transcendental functions the decoder calls, left uninterpreted:
   * `ln` is std::log applied to a probability (so ln(0) is -infinity), and
   * `softplus` is x |-> std::log(1.0 + std::exp(x)), which logSum applies to
   * the non-positive difference of its two arguments.
   */
  datatype LogMaths = LogMaths(ln: real -> LogProb, softplus: real -> real)

  /** log(1 + exp(x)) is never negative, because 1 + exp(x) is at least 1. */
  ghost predicate SoftplusNonNegative(m: LogMaths)
  {
    forall x :: x <= 0.0 ==> 0.0 <= m.softplus(x)
  }

  /**
   * logSum: -infinity is returned unchanged on either side; otherwise the
   * larger argument plus log(1 + exp(smaller - larger)).
   */
  function LogSum(m: LogMaths, a: LogProb, b: LogProb): (r: LogProb)
    ensures a.NegInf? ==> r == b
    ensures b.NegInf? ==> r == a
    ensures r.NegInf? <==> a.NegInf? && b.NegInf?
  {
    if a.NegInf? then b
    else if b.NegInf? then a
    else if a.r > b.r then Log(a.r + m.softplus(b.r - a.r))
    else Log(b.r + m.softplus(a.r - b.r))
  }

  /** The two branches of logSum mirror each other, so the order of the arguments does not matter. */
  lemma LogSumCommutes(m: LogMaths, a: LogProb, b: LogProb)
    ensures LogSum(m, a, b) == LogSum(m, b, a)
  {
  }

  /** logSum is at least the larger of its arguments. */
  lemma LogSumAboveBoth(m: LogMaths, a: LogProb, b: LogProb)
    requires SoftplusNonNegative(m)
    ensures Le(a, LogSum(m, a, b)) && Le(b, LogSum(m, a, b))
  {
    if a.Log? && b.Log? {
      if a.r > b.r {
        assert 0.0 <= m.softplus(b.r - a.r);
      } else {
        assert 0.0 <= m.softplus(a.r - b.r);
      }
    }
  }

  /**
   * The accumulator loops of forward, backward and the forward total:
   * start from -infinity and logSum in the first k values one by one.
   */
  function Fold(m: LogMaths, c: seq<LogProb>, k: nat): (r: LogProb)
    requires k <= |c|
    ensures r.NegInf? <==> forall i :: 0 <= i < k ==> c[i].NegInf?
  {
    if k == 0 then NegInf else LogSum(m, Fold(m, c, k - 1), c[k - 1])
  }

  /** The folded total is at least every value folded into it. */
  lemma {:induction false} FoldAboveAll(m: LogMaths, c: seq<LogProb>, k: nat)
    requires SoftplusNonNegative(m)
    requires k <= |c|
    ensures forall i :: 0 <= i < k ==> Le(c[i], Fold(m, c, k))
  {
    if k > 0 {
      FoldAboveAll(m, c, k - 1);
      LogSumAboveBoth(m, Fold(m, c, k - 1), c[k - 1]);
    }
  }

  /**
   * One step of the scans `if (x > maxProb) { maxProb = x; maxState = i; }`:
   * a strictly larger value x at index i replaces the running best.
   */
  function ScanStep(best: (LogProb, nat), x: LogProb, i: nat): (LogProb, nat)
  {
    if Gt(x, best.0) then (x, i) else best
  }

  /**
   * The running maximum over the first k values, starting from
   * (-infinity, 0): the maximum, and the lowest index attaining it, or 0
   * when every value is -infinity.
   */
  function Scan(c: seq<LogProb>, k: nat): (best: (LogProb, nat))
    requires k <= |c|
    ensures k == 0 ==> best == (NegInf, 0)
    ensures k > 0 ==> best.1 < k && c[best.1] == best.0
    ensures best.0.NegInf? ==> best.1 == 0
  {
    if k == 0 then (NegInf, 0) else ScanStep(Scan(c, k - 1), c[k - 1], k - 1)
  }

  /**
   * The scan finds the maximum, and the index it reports is the first one
   * attaining it: every earlier value is strictly smaller.
   */
  lemma {:induction false} ScanIsFirstMax(c: seq<LogProb>, k: nat)
    requires k <= |c|
    ensures forall i :: 0 <= i < k ==> Le(c[i], Scan(c, k).0)
    ensures forall i :: 0 <= i < Scan(c, k).1 ==> Gt(Scan(c, k).0, c[i])
  {
    if k > 0 {
      ScanIsFirstMax(c, k - 1);
    }
  }

  /**
   * The loop over the last delta row that keeps the first strictly larger
   * value: it computes the scan of the whole row.
   */
  method ArgMax(row: seq<LogProb>) returns (maxProb: LogProb, maxState: nat)
    ensures (maxProb, maxState) == Scan(row, |row|)
  {
    maxProb := NegInf;
    maxState := 0;
    var i := 0;
    while i < |row|
      invariant 0 <= i <= |row|
      invariant (maxProb, maxState) == Scan(row, i)
    {
      if Gt(row[i], maxProb) {
        maxProb := row[i];
        maxState := i;
      }
      i := i + 1;
    }
  }

  // ---------------------------------------------------------------------
  // Models, observations and results
  // ---------------------------------------------------------------------

  /** The fields of a HiddenMarkovModel: probabilities, not yet logarithms. */
  datatype Model = Model(numStates: int, numObservations: int,
                         transitions: seq<seq<real>>, emissions: seq<seq<real>>, initial: seq<real>)

  /**
   * The matrices have the sizes the constructor gives them: numStates x
   * numStates transitions, numStates x numObservations emissions and
   * numStates initial probabilities.
   */
  predicate Shaped(h: Model)
  {
    0 <= h.numStates && 0 <= h.numObservations &&
    |h.transitions| == h.numStates && |h.emissions| == h.numStates && |h.initial| == h.numStates &&
    (forall i :: 0 <= i < h.numStates ==> |h.transitions[i]| == h.numStates) &&
    (forall i :: 0 <= i < h.numStates ==> |h.emissions[i]| == h.numObservations)
  }

  /**
   * Observation symbols index the emission rows, so none may be negative;
   * symbols at or above numObservations are allowed and score -infinity.
   */
  predicate Symbols(obs: seq<int>)
  {
    forall t :: 0 <= t < |obs| ==> 0 <= obs[t]
  }

  /** One decoding problem: a model, the logarithm it is scored with, and the observations. */
  datatype Problem = Problem(model: Model, maths: LogMaths, obs: seq<int>)

  predicate WellFormed(p: Problem)
  {
    Shaped(p.model) && Symbols(p.obs)
  }

  function States(p: Problem): nat
    requires WellFormed(p)
  {
    p.model.numStates
  }

  /** log of the initial probability of state s. */
  function Start(p: Problem, s: int): LogProb
    requires WellFormed(p) && 0 <= s < States(p)
  {
    p.maths.ln(p.model.initial[s])
  }

  /** log of the probability of moving from state i to state j. */
  function Trans(p: Problem, i: int, j: int): LogProb
    requires WellFormed(p) && 0 <= i < States(p) && 0 <= j < States(p)
  {
    p.maths.ln(p.model.transitions[i][j])
  }

  /** log of the probability that state s emits observation t; -infinity for a symbol outside the model. */
  function Emit(p: Problem, t: int, s: int): LogProb
    requires WellFormed(p) && 0 <= t < |p.obs| && 0 <= s < States(p)
  {
    if p.obs[t] < p.model.numObservations then p.maths.ln(p.model.emissions[s][p.obs[t]]) else NegInf
  }

  datatype ViterbiResult = ViterbiResult(path: seq<int>, probability: LogProb, probabilities: seq<LogProb>)

  datatype ForwardResult = ForwardResult(probability: LogProb, alpha: seq<seq<LogProb>>)

  // ---------------------------------------------------------------------
  // Viterbi
  // ---------------------------------------------------------------------

  /**
   * delta[t][j]: start plus emission at t = 0; afterwards the best score of
   * reaching j from the previous step, plus the emission.
   */
  function Delta(p: Problem, t: nat, j: int): LogProb
    requires WellFormed(p) && t < |p.obs| && 0 <= j < States(p)
    decreases t, 2, 0
  {
    if t == 0 then Add(Start(p, j), Emit(p, 0, j))
    else Add(Best(p, t, j, States(p)).0, Emit(p, t, j))
  }

  /** The score `delta[t-1][i] + log(A[i][j])` of reaching state j at step t from state i. */
  function Reach(p: Problem, t: nat, i: int, j: int): LogProb
    requires WellFormed(p) && 1 <= t < |p.obs| && 0 <= i < States(p) && 0 <= j < States(p)
    decreases t, 0, 0
  {
    Add(Delta(p, t - 1, i), Trans(p, i, j))
  }

  /** The inner scan of the recursion step over the predecessors i < k of state j at step t. */
  function Best(p: Problem, t: nat, j: int, k: nat): (best: (LogProb, nat))
    requires WellFormed(p) && 1 <= t < |p.obs| && 0 <= j < States(p) && k <= States(p)
    ensures k == 0 ==> best == (NegInf, 0)
    ensures k > 0 ==> best.1 < k && Reach(p, t, best.1, j) == best.0
    ensures best.0.NegInf? ==> best.1 == 0
    decreases t, 1, k
  {
    if k == 0 then (NegInf, 0) else ScanStep(Best(p, t, j, k - 1), Reach(p, t, k - 1, j), k - 1)
  }

  /** The inner scan finds the best predecessor, and the first one attaining it. */
  lemma {:induction false} BestIsFirstMax(p: Problem, t: nat, j: int, k: nat)
    requires WellFormed(p) && 1 <= t < |p.obs| && 0 <= j < States(p) && k <= States(p)
    ensures forall i :: 0 <= i < k ==> Le(Reach(p, t, i, j), Best(p, t, j, k).0)
    ensures forall i :: 0 <= i < Best(p, t, j, k).1 ==> Gt(Best(p, t, j, k).0, Reach(p, t, i, j))
  {
    if k > 0 {
      BestIsFirstMax(p, t, j, k - 1);
    }
  }

  /** psi[t][j]: 0 at t = 0; afterwards the predecessor the inner scan settled on. */
  function Psi(p: Problem, t: nat, j: int): (i: int)
    requires WellFormed(p) && t < |p.obs| && 0 <= j < States(p)
    ensures 0 <= i < States(p)
  {
    if t == 0 then 0 else Best(p, t, j, States(p)).1
  }

  /** Row t of delta. */
  function DeltaRow(p: Problem, t: nat): (row: seq<LogProb>)
    requires WellFormed(p) && t < |p.obs|
    ensures |row| == States(p)
    ensures forall s :: 0 <= s < States(p) ==> row[s] == Delta(p, t, s)
  {
    seq(States(p), s requires 0 <= s < States(p) => Delta(p, t, s))
  }

  /** The state the Viterbi path is in at step t: the argmax of the last row, then the back-pointers. */
  function StateAt(p: Problem, t: nat): (s: int)
    requires WellFormed(p) && t < |p.obs| && States(p) >= 1
    ensures 0 <= s < States(p)
    decreases |p.obs| - t
  {
    if t == |p.obs| - 1 then Scan(DeltaRow(p, t), States(p)).1
    else Psi(p, t + 1, StateAt(p, t + 1))
  }

  /** Before the last step, the path's state is the back-pointer of the state after it. */
  lemma StateAtStep(p: Problem, t: nat)
    requires WellFormed(p) && States(p) >= 1 && t < |p.obs| - 1
    ensures StateAt(p, t) == Psi(p, t + 1, StateAt(p, t + 1))
  {
  }

  /**
   * What viterbi returns: no path and -infinity for no observations;
   * otherwise the backtracked path, the delta value of its last state (the
   * maximum of the last delta row, by ViterbiProbabilityIsMax) and the delta
   * value of the path at every step.
   */
  function ViterbiOf(p: Problem): (r: ViterbiResult)
    requires WellFormed(p) && (|p.obs| > 0 ==> States(p) >= 1)
    ensures |r.path| == |p.obs| && |r.probabilities| == |p.obs|
    ensures |p.obs| == 0 ==> r == ViterbiResult([], NegInf, [])
    ensures forall t :: 0 <= t < |p.obs| ==> 0 <= r.path[t] < States(p)
    ensures forall t :: 0 <= t < |p.obs| ==> r.probabilities[t] == Delta(p, t, r.path[t])
  {
    var T := |p.obs|;
    if T == 0 then ViterbiResult([], NegInf, [])
    else
      var path := seq(T, t requires 0 <= t < T => StateAt(p, t));
      ViterbiResult(path, Delta(p, T - 1, StateAt(p, T - 1)),
                    seq(T, t requires 0 <= t < T => Delta(p, t, path[t])))
  }

  /** The reported path follows the back-pointers psi: each state but the last is psi of the state after it. */
  lemma ViterbiPathFollowsPsi(p: Problem)
    requires WellFormed(p) && |p.obs| > 0 && States(p) >= 1
    ensures forall t :: 0 <= t < |p.obs| - 1 ==> ViterbiOf(p).path[t] == Psi(p, t + 1, ViterbiOf(p).path[t + 1])
  {
    var path := ViterbiOf(p).path;
    forall t | 0 <= t < |p.obs| - 1
      ensures path[t] == Psi(p, t + 1, path[t + 1])
    {
      assert path[t] == StateAt(p, t) && path[t + 1] == StateAt(p, t + 1);
      StateAtStep(p, t);
    }
  }

  /**
   * The reported probability is the delta of the path's last state, and no
   * state of the last step has a larger delta.
   */
  lemma ViterbiProbabilityIsMax(p: Problem)
    requires WellFormed(p) && |p.obs| > 0 && States(p) >= 1
    ensures ViterbiOf(p).probability == ViterbiOf(p).probabilities[|p.obs| - 1]
    ensures var last := |p.obs| - 1;
      forall s :: 0 <= s < States(p) ==> Le(Delta(p, last, s), ViterbiOf(p).probability)
  {
    var last := |p.obs| - 1;
    ScanIsFirstMax(DeltaRow(p, last), States(p));
  }

  /**
   * The recurrence of one delta cell: the maximum over all predecessors of
   * delta plus the transition, plus the emission; psi holds the lowest
   * predecessor attaining it, or 0 when every one is -infinity, in which
   * case the cell is -infinity too.
   */
  lemma ViterbiRecurrence(p: Problem, t: nat, j: int)
    requires WellFormed(p) && 1 <= t < |p.obs| && 0 <= j < States(p)
    ensures var i := Psi(p, t, j);
      Delta(p, t, j) == Add(Reach(p, t, i, j), Emit(p, t, j)) &&
      (forall k :: 0 <= k < States(p) ==> Le(Reach(p, t, k, j), Reach(p, t, i, j))) &&
      (forall k :: 0 <= k < i ==> Gt(Reach(p, t, i, j), Reach(p, t, k, j))) &&
      ((forall k :: 0 <= k < States(p) ==> Reach(p, t, k, j).NegInf?) ==> i == 0 && Delta(p, t, j).NegInf?)
  {
    BestIsFirstMax(p, t, j, States(p));
  }

  /** The sequence q lists states of the model. */
  predicate StatePath(p: Problem, q: seq<int>)
    requires WellFormed(p)
  {
    forall k :: 0 <= k < |q| ==> 0 <= q[k] < States(p)
  }

  /**
   * The log-score of the state sequence q over the first |q| observations:
   * start and emission at step 0, then a transition and an emission per step.
   */
  function Score(p: Problem, q: seq<int>): LogProb
    requires WellFormed(p) && StatePath(p, q) && 1 <= |q| <= |p.obs|
    decreases |q|
  {
    var t := |q| - 1;
    if t == 0 then Add(Start(p, q[0]), Emit(p, 0, q[0]))
    else Add(Add(Score(p, q[..t]), Trans(p, q[t - 1], q[t])), Emit(p, t, q[t]))
  }

  /** delta[t][s] bounds the score of every state sequence of length t + 1 that ends in s. */
  lemma {:induction false} ScoreBelowDelta(p: Problem, q: seq<int>)
    requires WellFormed(p) && StatePath(p, q) && 1 <= |q| <= |p.obs|
    ensures Le(Score(p, q), Delta(p, |q| - 1, q[|q| - 1]))
    decreases |q|
  {
    var t := |q| - 1;
    if t > 0 {
      var q', i, j := q[..t], q[t - 1], q[t];
      assert StatePath(p, q') && q'[t - 1] == i;
      ScoreBelowDelta(p, q');
      BestIsFirstMax(p, t, j, States(p));
      var best := Best(p, t, j, States(p)).0;
      var viaI := Add(Score(p, q'), Trans(p, i, j));
      assert Le(viaI, best) by {
        AddMonotone(Score(p, q'), Delta(p, t - 1, i), Trans(p, i, j));
        assert Le(Reach(p, t, i, j), best);
      }
      assert Score(p, q) == Add(viaI, Emit(p, t, j));
      AddMonotone(viaI, best, Emit(p, t, j));
    }
  }

  /** Every state of q but the last is the back-pointer psi of the state after it. */
  predicate FollowsBackPointers(p: Problem, q: seq<int>)
    requires WellFormed(p) && StatePath(p, q) && |q| <= |p.obs|
  {
    forall k :: 0 <= k < |q| - 1 ==> q[k] == Psi(p, k + 1, q[k + 1])
  }

  /** A state sequence that follows the back-pointers scores exactly delta of its last step and state. */
  lemma {:induction false} PathScoreIsDelta(p: Problem, q: seq<int>)
    requires WellFormed(p) && StatePath(p, q) && 1 <= |q| <= |p.obs| && FollowsBackPointers(p, q)
    ensures Score(p, q) == Delta(p, |q| - 1, q[|q| - 1])
    decreases |q|
  {
    var t := |q| - 1;
    if t > 0 {
      var q', i, j := q[..t], q[t - 1], q[t];
      assert StatePath(p, q') && q'[t - 1] == i;
      assert FollowsBackPointers(p, q');
      PathScoreIsDelta(p, q');
      assert i == Psi(p, t, j);
      assert Delta(p, t, j) == Add(Reach(p, t, i, j), Emit(p, t, j));
      assert Score(p, q) == Add(Add(Score(p, q'), Trans(p, i, j)), Emit(p, t, j));
    }
  }

  /**
   * Viterbi is optimal: for a non-empty observation sequence the reported
   * probability is the score of the reported path, and no state sequence of
   * the same length scores higher.
   */
  lemma ViterbiOptimal(p: Problem)
    requires WellFormed(p) && |p.obs| > 0 && States(p) >= 1
    ensures StatePath(p, ViterbiOf(p).path)
    ensures Score(p, ViterbiOf(p).path) == ViterbiOf(p).probability
    ensures forall q :: StatePath(p, q) && |q| == |p.obs| ==> Le(Score(p, q), ViterbiOf(p).probability)
  {
    ViterbiPathScore(p);
    forall q | StatePath(p, q) && |q| == |p.obs|
      ensures Le(Score(p, q), ViterbiOf(p).probability)
    {
      ScoreBelowViterbi(p, q);
    }
  }

  /** The last state of the reported path is the argmax of the last delta row. */
  lemma LastStateIsArgMax(p: Problem)
    requires WellFormed(p) && |p.obs| > 0 && States(p) >= 1
    ensures var last := |p.obs| - 1; StateAt(p, last) == Scan(DeltaRow(p, last), States(p)).1
  {
  }

  /** ViterbiOf is determined by its path, its probability and its per-step deltas. */
  lemma ViterbiOfParts(p: Problem, path: seq<int>, probability: LogProb, probabilities: seq<LogProb>)
    requires WellFormed(p) && |p.obs| > 0 && States(p) >= 1
    requires |path| == |p.obs| && forall t :: 0 <= t < |p.obs| ==> 0 <= path[t] < States(p) && path[t] == StateAt(p, t)
    requires |probabilities| == |p.obs| && forall t :: 0 <= t < |p.obs| ==> probabilities[t] == Delta(p, t, path[t])
    requires probability == Delta(p, |p.obs| - 1, path[|p.obs| - 1])
    ensures ViterbiOf(p) == ViterbiResult(path, probability, probabilities)
  {
    var r := ViterbiOf(p);
    assert r.path == path;
    assert r.probabilities == probabilities;
  }

  /** The reported path is a state sequence whose score is the reported probability. */
  lemma ViterbiPathScore(p: Problem)
    requires WellFormed(p) && |p.obs| > 0 && States(p) >= 1
    ensures StatePath(p, ViterbiOf(p).path)
    ensures Score(p, ViterbiOf(p).path) == ViterbiOf(p).probability
  {
    var r := ViterbiOf(p);
    var last := |p.obs| - 1;
    ViterbiPathFollowsPsi(p);
    assert StatePath(p, r.path) && FollowsBackPointers(p, r.path);
    PathScoreIsDelta(p, r.path);
    ViterbiProbabilityIsMax(p);
    assert Score(p, r.path) == r.probabilities[last] == r.probability;
  }

  /** No state sequence as long as the observations scores above the reported probability. */
  lemma ScoreBelowViterbi(p: Problem, q: seq<int>)
    requires WellFormed(p) && |p.obs| > 0 && States(p) >= 1
    requires StatePath(p, q) && |q| == |p.obs|
    ensures Le(Score(p, q), ViterbiOf(p).probability)
  {
    var last := |p.obs| - 1;
    ScoreBelowDelta(p, q);
    ViterbiProbabilityIsMax(p);
    assert Le(Delta(p, last, q[last]), ViterbiOf(p).probability);
  }

  // ---------------------------------------------------------------------
  // Forward and backward
  // ---------------------------------------------------------------------

  /** alpha[t][j]: as delta at t = 0; afterwards the logSum of all predecessor scores, plus the emission. */
  function Alpha(p: Problem, t: nat, j: int): LogProb
    requires WellFormed(p) && t < |p.obs| && 0 <= j < States(p)
    decreases t, 2, 0
  {
    if t == 0 then Add(Start(p, j), Emit(p, 0, j))
    else Add(AlphaSum(p, t, j, States(p)), Emit(p, t, j))
  }

  /** The score `alpha[t-1][i] + log(A[i][j])` of flowing into state j at step t from state i. */
  function Flow(p: Problem, t: nat, i: int, j: int): LogProb
    requires WellFormed(p) && 1 <= t < |p.obs| && 0 <= i < States(p) && 0 <= j < States(p)
    decreases t, 0, 0
  {
    Add(Alpha(p, t - 1, i), Trans(p, i, j))
  }

  /** The inner accumulator of the recursion step: logSum of the flows from the predecessors i < k. */
  function AlphaSum(p: Problem, t: nat, j: int, k: nat): LogProb
    requires WellFormed(p) && 1 <= t < |p.obs| && 0 <= j < States(p) && k <= States(p)
    decreases t, 1, k
  {
    if k == 0 then NegInf else LogSum(p.maths, AlphaSum(p, t, j, k - 1), Flow(p, t, k - 1, j))
  }

  /**
   * The accumulated sum is at least every flow summed into it, and
   * -infinity exactly when every one of those flows is.
   */
  lemma {:induction false} AlphaSumBounds(p: Problem, t: nat, j: int, k: nat)
    requires WellFormed(p) && 1 <= t < |p.obs| && 0 <= j < States(p) && k <= States(p)
    requires SoftplusNonNegative(p.maths)
    ensures forall i :: 0 <= i < k ==> Le(Flow(p, t, i, j), AlphaSum(p, t, j, k))
    ensures AlphaSum(p, t, j, k).NegInf? <==> forall i :: 0 <= i < k ==> Flow(p, t, i, j).NegInf?
  {
    if k > 0 {
      AlphaSumBounds(p, t, j, k - 1);
      assert AlphaSum(p, t, j, k) == LogSum(p.maths, AlphaSum(p, t, j, k - 1), Flow(p, t, k - 1, j));
      LogSumAboveBoth(p.maths, AlphaSum(p, t, j, k - 1), Flow(p, t, k - 1, j));
      assert (forall i :: 0 <= i < k ==> Flow(p, t, i, j).NegInf?) <==>
             (forall i :: 0 <= i < k - 1 ==> Flow(p, t, i, j).NegInf?) && Flow(p, t, k - 1, j).NegInf?;
    }
  }

  /** Row t of alpha. */
  function AlphaRow(p: Problem, t: nat): (row: seq<LogProb>)
    requires WellFormed(p) && t < |p.obs|
    ensures |row| == States(p)
    ensures forall s :: 0 <= s < States(p) ==> row[s] == Alpha(p, t, s)
  {
    seq(States(p), s requires 0 <= s < States(p) => Alpha(p, t, s))
  }

  /**
   * An observation symbol outside the model makes every delta and every
   * alpha of its step -infinity.
   */
  lemma OutOfVocabulary(p: Problem, t: nat)
    requires WellFormed(p) && t < |p.obs| && p.obs[t] >= p.model.numObservations
    ensures forall s :: 0 <= s < States(p) ==> Delta(p, t, s) == NegInf && Alpha(p, t, s) == NegInf
  {
  }

  /**
   * What forward returns: -infinity and no lattice for no observations;
   * otherwise every alpha row and the logSum of the last one.
   */
  function ForwardOf(p: Problem): (r: ForwardResult)
    requires WellFormed(p)
    ensures |r.alpha| == |p.obs|
    ensures |p.obs| == 0 ==> r == ForwardResult(NegInf, [])
    ensures forall t :: 0 <= t < |p.obs| ==> r.alpha[t] == AlphaRow(p, t)
  {
    var T := |p.obs|;
    if T == 0 then ForwardResult(NegInf, [])
    else
      ForwardResult(Fold(p.maths, AlphaRow(p, T - 1), States(p)), seq(T, t requires 0 <= t < T => AlphaRow(p, t)))
  }

  /** ForwardOf is determined by its rows and the logSum of the last one. */
  lemma ForwardOfParts(p: Problem, total: LogProb, alpha: seq<seq<LogProb>>)
    requires WellFormed(p) && |p.obs| > 0
    requires |alpha| == |p.obs| && forall t :: 0 <= t < |p.obs| ==> alpha[t] == AlphaRow(p, t)
    requires total == Fold(p.maths, AlphaRow(p, |p.obs| - 1), States(p))
    ensures ForwardOf(p) == ForwardResult(total, alpha)
  {
    assert ForwardOf(p).alpha == alpha;
  }

  /**
   * The forward total is at least alpha[T-1][s] for every state s, and it is
   * -infinity exactly when every state of the last step is.
   */
  lemma ForwardTotalBounds(p: Problem)
    requires WellFormed(p) && |p.obs| > 0 && SoftplusNonNegative(p.maths)
    ensures var last := |p.obs| - 1;
      forall s :: 0 <= s < States(p) ==> Le(Alpha(p, last, s), ForwardOf(p).probability)
    ensures var last := |p.obs| - 1;
      ForwardOf(p).probability.NegInf? ==> forall s :: 0 <= s < States(p) ==> Alpha(p, last, s).NegInf?
    ensures var last := |p.obs| - 1;
      (forall s :: 0 <= s < States(p) ==> Alpha(p, last, s).NegInf?) ==> ForwardOf(p).probability.NegInf?
  {
    var last := |p.obs| - 1;
    var row := AlphaRow(p, last);
    var total := Fold(p.maths, row, States(p));
    assert ForwardOf(p).probability == total;
    FoldAboveAll(p.maths, row, States(p));
    if total.NegInf? {
      forall s | 0 <= s < States(p)
        ensures Alpha(p, last, s).NegInf?
      {
        assert row[s].NegInf?;
      }
    } else {
      var s :| 0 <= s < States(p) && !row[s].NegInf?;
      assert !Alpha(p, last, s).NegInf?;
    }
  }

  /** Summing in log space never gives less than maximising: delta[t][s] <= alpha[t][s]. */
  lemma {:induction false} DeltaBelowAlpha(p: Problem, t: nat)
    requires WellFormed(p) && t < |p.obs| && SoftplusNonNegative(p.maths)
    ensures forall s :: 0 <= s < States(p) ==> Le(Delta(p, t, s), Alpha(p, t, s))
  {
    if t > 0 {
      DeltaBelowAlpha(p, t - 1);
      forall j | 0 <= j < States(p)
        ensures Le(Delta(p, t, j), Alpha(p, t, j))
      {
        var N := States(p);
        var i := Best(p, t, j, N).1;
        AlphaSumBounds(p, t, j, N);
        AddMonotone(Delta(p, t - 1, i), Alpha(p, t - 1, i), Trans(p, i, j));
        assert Le(Reach(p, t, i, j), Flow(p, t, i, j));
        assert Le(Best(p, t, j, N).0, AlphaSum(p, t, j, N));
        AddMonotone(Best(p, t, j, N).0, AlphaSum(p, t, j, N), Emit(p, t, j));
      }
    }
  }

  /** The Viterbi path probability never exceeds the forward total likelihood. */
  lemma ViterbiBelowForward(p: Problem)
    requires WellFormed(p) && |p.obs| > 0 && States(p) >= 1 && SoftplusNonNegative(p.maths)
    ensures Le(ViterbiOf(p).probability, ForwardOf(p).probability)
  {
    var T := |p.obs|;
    DeltaBelowAlpha(p, T - 1);
    ForwardTotalBounds(p);
    var s := ViterbiOf(p).path[T - 1];
    assert Le(Delta(p, T - 1, s), Alpha(p, T - 1, s));
  }

  /** Backward reads the emission of every observation after the first without a guard. */
  predicate InVocabulary(p: Problem)
    requires WellFormed(p)
  {
    forall t :: 1 <= t < |p.obs| ==> p.obs[t] < p.model.numObservations
  }

  /**
   * beta[t][i]: log 1 = 0 in the last row; before it the logSum of all
   * continuations out of state i.
   */
  function Beta(p: Problem, t: nat, i: int): LogProb
    requires WellFormed(p) && InVocabulary(p) && t < |p.obs| && 0 <= i < States(p)
    decreases |p.obs| - t, 2, 0
  {
    if t == |p.obs| - 1 then Log(0.0) else BetaSum(p, t, i, States(p))
  }

  /**
   * The score of moving from state i to state j, emitting observation t + 1
   * there, and continuing with beta[t+1][j].
   */
  function Onward(p: Problem, t: nat, i: int, j: int): LogProb
    requires WellFormed(p) && InVocabulary(p) && t + 1 < |p.obs| && 0 <= i < States(p) && 0 <= j < States(p)
    decreases |p.obs| - t, 0, 0
  {
    Add(Add(Trans(p, i, j), p.maths.ln(p.model.emissions[j][p.obs[t + 1]])), Beta(p, t + 1, j))
  }

  /** The inner accumulator of backward: logSum of the continuations into states j < k. */
  function BetaSum(p: Problem, t: nat, i: int, k: nat): LogProb
    requires WellFormed(p) && InVocabulary(p) && t + 1 < |p.obs| && 0 <= i < States(p) && k <= States(p)
    decreases |p.obs| - t, 1, k
  {
    if k == 0 then NegInf else LogSum(p.maths, BetaSum(p, t, i, k - 1), Onward(p, t, i, k - 1))
  }

  /**
   * The accumulated sum is at least every continuation summed into it, and
   * -infinity exactly when every one of those continuations is.
   */
  lemma {:induction false} BetaSumBounds(p: Problem, t: nat, i: int, k: nat)
    requires WellFormed(p) && InVocabulary(p) && t + 1 < |p.obs| && 0 <= i < States(p) && k <= States(p)
    requires SoftplusNonNegative(p.maths)
    ensures forall j :: 0 <= j < k ==> Le(Onward(p, t, i, j), BetaSum(p, t, i, k))
    ensures BetaSum(p, t, i, k).NegInf? <==> forall j :: 0 <= j < k ==> Onward(p, t, i, j).NegInf?
  {
    if k > 0 {
      BetaSumBounds(p, t, i, k - 1);
      assert BetaSum(p, t, i, k) == LogSum(p.maths, BetaSum(p, t, i, k - 1), Onward(p, t, i, k - 1));
      LogSumAboveBoth(p.maths, BetaSum(p, t, i, k - 1), Onward(p, t, i, k - 1));
      assert (forall j :: 0 <= j < k ==> Onward(p, t, i, j).NegInf?) <==>
             (forall j :: 0 <= j < k - 1 ==> Onward(p, t, i, j).NegInf?) && Onward(p, t, i, k - 1).NegInf?;
    }
  }

  /** Row t of beta. */
  function BetaRow(p: Problem, t: nat): (row: seq<LogProb>)
    requires WellFormed(p) && InVocabulary(p) && t < |p.obs|
    ensures |row| == States(p)
    ensures forall s :: 0 <= s < States(p) ==> row[s] == Beta(p, t, s)
  {
    seq(States(p), s requires 0 <= s < States(p) => Beta(p, t, s))
  }

  /**
   * beta[t][i] is at least every single continuation into step t + 1, and
   * -infinity exactly when every continuation is.
   */
  lemma BetaAboveContinuations(p: Problem, t: nat, i: int)
    requires WellFormed(p) && InVocabulary(p) && t + 1 < |p.obs| && 0 <= i < States(p)
    requires SoftplusNonNegative(p.maths)
    ensures forall j :: 0 <= j < States(p) ==> Le(Onward(p, t, i, j), Beta(p, t, i))
    ensures Beta(p, t, i).NegInf? <==> forall j :: 0 <= j < States(p) ==> Onward(p, t, i, j).NegInf?
  {
    BetaSumBounds(p, t, i, States(p));
  }

  // ---------------------------------------------------------------------
  // The decoder
  // ---------------------------------------------------------------------

  class HiddenMarkovModel {
    var numStates: int
    var numObservations: int
    var transitionMatrix: seq<seq<real>>
    var emissionMatrix: seq<seq<real>>
    var initialProbabilities: seq<real>

    /** The fields as a model value. */
    function Params(): Model
      reads this
    {
      Model(numStates, numObservations, transitionMatrix, emissionMatrix, initialProbabilities)
    }

    /** A model of the given sizes whose probabilities are all 0. */
    constructor (states: int, observations: int)
      requires 0 <= states && 0 <= observations
      ensures Shaped(Params())
      ensures numStates == states && numObservations == observations
      ensures transitionMatrix == seq(states, _ => seq(states, _ => 0.0))
      ensures emissionMatrix == seq(states, _ => seq(observations, _ => 0.0))
      ensures initialProbabilities == seq(states, _ => 0.0)
    {
      numStates := states;
      numObservations := observations;
      transitionMatrix := seq(states, _ => seq(states, _ => 0.0));
      emissionMatrix := seq(states, _ => seq(observations, _ => 0.0));
      initialProbabilities := seq(states, _ => 0.0);
    }

    method SetTransitionMatrix(transitions: seq<seq<real>>)
      modifies this
      ensures Params() == old(Params()).(transitions := transitions)
    {
      transitionMatrix := transitions;
    }

    method SetEmissionMatrix(emissions: seq<seq<real>>)
      modifies this
      ensures Params() == old(Params()).(emissions := emissions)
    {
      emissionMatrix := emissions;
    }

    method SetInitialProbabilities(initial: seq<real>)
      modifies this
      ensures Params() == old(Params()).(initial := initial)
    {
      initialProbabilities := initial;
    }

    /**
     * Row 0 of delta, and of alpha: log start plus log emission, or
     * -infinity throughout for a symbol outside the model.
     */
    method FirstRow(observations: seq<int>, maths: LogMaths) returns (row: seq<LogProb>)
      requires Shaped(Params()) && Symbols(observations) && |observations| > 0
      ensures |row| == numStates
      ensures forall s :: 0 <= s < numStates ==>
        row[s] == Delta(Problem(Params(), maths, observations), 0, s) &&
        row[s] == Alpha(Problem(Params(), maths, observations), 0, s)
    {
      ghost var p := Problem(Params(), maths, observations);
      row := seq(numStates, _ => Log(0.0));
      var i := 0;
      while i < numStates
        invariant 0 <= i <= numStates && |row| == numStates
        invariant forall s :: 0 <= s < i ==> row[s] == Delta(p, 0, s) && row[s] == Alpha(p, 0, s)
      {
        if observations[0] < numObservations {
          row := row[i := Add(maths.ln(initialProbabilities[i]), maths.ln(emissionMatrix[i][observations[0]]))];
        } else {
          row := row[i := NegInf];
        }
        i := i + 1;
      }
    }

    /**
     * One step t >= 1 of the Viterbi recursion: for every state j, scan the
     * predecessors for the best delta plus transition, add the emission,
     * and record the predecessor in psi.
     */
    method ViterbiStep(observations: seq<int>, maths: LogMaths, prev: seq<LogProb>, t: int)
      returns (row: seq<LogProb>, back: seq<int>)
      requires Shaped(Params()) && Symbols(observations) && 1 <= t < |observations|
      requires |prev| == numStates
      requires forall s :: 0 <= s < numStates ==> prev[s] == Delta(Problem(Params(), maths, observations), t - 1, s)
      ensures |row| == numStates && |back| == numStates
      ensures forall s :: 0 <= s < numStates ==>
        row[s] == Delta(Problem(Params(), maths, observations), t, s) &&
        back[s] == Psi(Problem(Params(), maths, observations), t, s)
    {
      ghost var p := Problem(Params(), maths, observations);
      var N := numStates;
      row, back := seq(N, _ => Log(0.0)), seq(N, _ => 0);
      var j := 0;
      while j < N
        invariant 0 <= j <= N && |row| == N && |back| == N
        invariant forall s :: 0 <= s < j ==> row[s] == Delta(p, t, s) && back[s] == Psi(p, t, s)
      {
        var maxProb := NegInf;
        var maxState := 0;
        var k := 0;
        while k < N
          invariant 0 <= k <= N
          invariant (maxProb, maxState) == Best(p, t, j, k)
        {
          var prob := Add(prev[k], maths.ln(transitionMatrix[k][j]));
          assert prob == Reach(p, t, k, j);
          if Gt(prob, maxProb) {
            maxProb := prob;
            maxState := k;
          }
          k := k + 1;
        }
        if observations[t] < numObservations {
          row := row[j := Add(maxProb, maths.ln(emissionMatrix[j][observations[t]]))];
        } else {
          row := row[j := NegInf];
        }
        back := back[j := maxState];
        j := j + 1;
      }
    }

    /**
     * The backtracking loop of viterbi: the path ends in the given state and
     * each earlier state is the back-pointer of the state after it.
     */
    method Backtrack(observations: seq<int>, maths: LogMaths, psi: seq<seq<int>>, lastState: int)
      returns (path: seq<int>)
      requires Shaped(Params()) && Symbols(observations) && |observations| > 0 && numStates >= 1
      requires |psi| == |observations| && forall r :: 0 <= r < |psi| ==> |psi[r]| == numStates
      requires forall r, s :: 1 <= r < |psi| && 0 <= s < numStates ==>
        psi[r][s] == Psi(Problem(Params(), maths, observations), r, s)
      requires lastState == StateAt(Problem(Params(), maths, observations), |observations| - 1)
      ensures |path| == |observations|
      ensures forall k :: 0 <= k < |path| ==> path[k] == StateAt(Problem(Params(), maths, observations), k)
    {
      ghost var p := Problem(Params(), maths, observations);
      var T := |observations|;
      path := seq(T, _ => 0);
      path := path[T - 1 := lastState];
      var t := T - 2;
      while t >= 0
        invariant -1 <= t <= T - 2
        invariant |path| == T
        invariant forall k :: t < k < T ==> path[k] == StateAt(p, k)
      {
        var next := path[t + 1];
        assert psi[t + 1][next] == Psi(p, t + 1, next) == StateAt(p, t);
        path := path[t := psi[t + 1][next]];
        t := t - 1;
      }
    }

    /**
     * The initialisation and recursion of viterbi: the whole delta and psi
     * lattices, one row per observation.
     */
    method ViterbiLattice(observations: seq<int>, maths: LogMaths) returns (delta: seq<seq<LogProb>>, psi: seq<seq<int>>)
      requires Shaped(Params()) && Symbols(observations) && |observations| > 0
      ensures |delta| == |observations| && forall r :: 0 <= r < |delta| ==> |delta[r]| == numStates
      ensures |psi| == |observations| && forall r :: 0 <= r < |psi| ==> |psi[r]| == numStates
      ensures forall r, s :: 0 <= r < |delta| && 0 <= s < numStates ==>
        delta[r][s] == Delta(Problem(Params(), maths, observations), r, s) &&
        psi[r][s] == Psi(Problem(Params(), maths, observations), r, s)
    {
      ghost var p := Problem(Params(), maths, observations);
      var T := |observations|;
      var N := numStates;
      delta := seq(T, _ => seq(N, _ => Log(0.0)));
      psi := seq(T, _ => seq(N, _ => 0));
      var first := FirstRow(observations, maths);
      delta := delta[0 := first];

      var t := 1;
      while t < T
        invariant 1 <= t <= T
        invariant |delta| == T && forall r :: 0 <= r < T ==> |delta[r]| == N
        invariant |psi| == T && forall r :: 0 <= r < T ==> |psi[r]| == N
        invariant forall r, s :: 0 <= r < t && 0 <= s < N ==> delta[r][s] == Delta(p, r, s) && psi[r][s] == Psi(p, r, s)
      {
        var row, back := ViterbiStep(observations, maths, delta[t - 1], t);
        delta := delta[t := row];
        psi := psi[t := back];
        t := t + 1;
      }
    }

    /**
     * Viterbi decoding: fills delta and psi row by row, takes the argmax of
     * the last row, follows the back-pointers down to step 0, and reads off
     * delta along the path.
     */
    method Viterbi(observations: seq<int>, maths: LogMaths) returns (result: ViterbiResult)
      requires Shaped(Params()) && Symbols(observations)
      requires |observations| > 0 ==> numStates >= 1
      ensures result == ViterbiOf(Problem(Params(), maths, observations))
    {
      ghost var p := Problem(Params(), maths, observations);
      var T := |observations|;
      if T == 0 {
        return ViterbiResult([], NegInf, []);
      }
      var N := numStates;
      var delta, psi := ViterbiLattice(observations, maths);

      var lastRow := delta[T - 1];
      assert lastRow == DeltaRow(p, T - 1);
      var maxProb, maxState := ArgMax(lastRow);
      LastStateIsArgMax(p);

      var path := Backtrack(observations, maths, psi, maxState);

      var probabilities: seq<LogProb> := seq(T, _ => Log(0.0));
      var t := 0;
      while t < T
        invariant 0 <= t <= T
        invariant |probabilities| == T
        invariant forall k :: 0 <= k < t ==> probabilities[k] == Delta(p, k, path[k])
      {
        probabilities := probabilities[t := delta[t][path[t]]];
        t := t + 1;
      }

      ViterbiOfParts(p, path, maxProb, probabilities);
      result := ViterbiResult(path, maxProb, probabilities);
    }

    /**
     * One step t >= 1 of the forward recursion: for every state j, logSum
     * alpha plus transition over the predecessors, then add the emission.
     */
    method ForwardStep(observations: seq<int>, maths: LogMaths, prev: seq<LogProb>, t: int)
      returns (row: seq<LogProb>)
      requires Shaped(Params()) && Symbols(observations) && 1 <= t < |observations|
      requires |prev| == numStates
      requires forall s :: 0 <= s < numStates ==> prev[s] == Alpha(Problem(Params(), maths, observations), t - 1, s)
      ensures |row| == numStates
      ensures forall s :: 0 <= s < numStates ==> row[s] == Alpha(Problem(Params(), maths, observations), t, s)
    {
      ghost var p := Problem(Params(), maths, observations);
      var N := numStates;
      row := seq(N, _ => Log(0.0));
      var j := 0;
      while j < N
        invariant 0 <= j <= N && |row| == N
        invariant forall s :: 0 <= s < j ==> row[s] == Alpha(p, t, s)
      {
        row := row[j := NegInf];
        var k := 0;
        while k < N
          invariant 0 <= k <= N && |row| == N
          invariant forall s :: 0 <= s < j ==> row[s] == Alpha(p, t, s)
          invariant row[j] == AlphaSum(p, t, j, k)
        {
          var prob := Add(prev[k], maths.ln(transitionMatrix[k][j]));
          assert prob == Flow(p, t, k, j);
          row := row[j := LogSum(maths, row[j], prob)];
          k := k + 1;
        }
        if observations[t] < numObservations {
          row := row[j := Add(row[j], maths.ln(emissionMatrix[j][observations[t]]))];
        } else {
          row := row[j := NegInf];
        }
        j := j + 1;
      }
    }

    /**
     * The forward algorithm: fills alpha row by row with logSum over the
     * predecessors, then logSums the last row into the total.
     */
    method Forward(observations: seq<int>, maths: LogMaths) returns (result: ForwardResult)
      requires Shaped(Params()) && Symbols(observations)
      ensures result == ForwardOf(Problem(Params(), maths, observations))
    {
      ghost var p := Problem(Params(), maths, observations);
      var T := |observations|;
      if T == 0 {
        return ForwardResult(NegInf, []);
      }
      var N := numStates;
      var alpha: seq<seq<LogProb>> := seq(T, _ => seq(N, _ => Log(0.0)));
      var first := FirstRow(observations, maths);
      alpha := alpha[0 := first];

      var t := 1;
      while t < T
        invariant 1 <= t <= T
        invariant |alpha| == T && forall r :: 0 <= r < T ==> |alpha[r]| == N
        invariant forall r, s :: 0 <= r < t && 0 <= s < N ==> alpha[r][s] == Alpha(p, r, s)
      {
        var row := ForwardStep(observations, maths, alpha[t - 1], t);
        alpha := alpha[t := row];
        t := t + 1;
      }

      var lastRow := alpha[T - 1];
      assert lastRow == AlphaRow(p, T - 1);
      var totalProb := NegInf;
      var i := 0;
      while i < N
        invariant 0 <= i <= N
        invariant totalProb == Fold(maths, lastRow, i)
      {
        totalProb := LogSum(maths, totalProb, lastRow[i]);
        i := i + 1;
      }
      forall r | 0 <= r < T
        ensures alpha[r] == AlphaRow(p, r)
      {
      }
      ForwardOfParts(p, totalProb, alpha);
      result := ForwardResult(totalProb, alpha);
    }

    /**
     * One step t of the backward recursion, from row t + 1: for every state
     * i, logSum transition plus emission plus beta over the successors.
     */
    method BackwardStep(observations: seq<int>, maths: LogMaths, next: seq<LogProb>, t: int)
      returns (row: seq<LogProb>)
      requires Shaped(Params()) && Symbols(observations) && 0 <= t && t + 1 < |observations|
      requires InVocabulary(Problem(Params(), maths, observations))
      requires |next| == numStates
      requires forall s :: 0 <= s < numStates ==> next[s] == Beta(Problem(Params(), maths, observations), t + 1, s)
      ensures |row| == numStates
      ensures forall s :: 0 <= s < numStates ==> row[s] == Beta(Problem(Params(), maths, observations), t, s)
    {
      ghost var p := Problem(Params(), maths, observations);
      var N := numStates;
      row := seq(N, _ => Log(0.0));
      var i := 0;
      while i < N
        invariant 0 <= i <= N && |row| == N
        invariant forall s :: 0 <= s < i ==> row[s] == Beta(p, t, s)
      {
        row := row[i := NegInf];
        var j := 0;
        while j < N
          invariant 0 <= j <= N && |row| == N
          invariant forall s :: 0 <= s < i ==> row[s] == Beta(p, t, s)
          invariant row[i] == BetaSum(p, t, i, j)
        {
          var prob := Add(Add(maths.ln(transitionMatrix[i][j]), maths.ln(emissionMatrix[j][observations[t + 1]])), next[j]);
          assert prob == Onward(p, t, i, j);
          row := row[i := LogSum(maths, row[i], prob)];
          j := j + 1;
        }
        i := i + 1;
      }
    }

    /**
     * The backward algorithm: 0 in the last row, then each earlier row from
     * the one after it. It has no guard for an empty sequence or a symbol
     * outside the model, so the caller must rule both out.
     */
    method Backward(observations: seq<int>, maths: LogMaths) returns (beta: seq<seq<LogProb>>)
      requires Shaped(Params()) && Symbols(observations) && |observations| >= 1
      requires InVocabulary(Problem(Params(), maths, observations))
      ensures |beta| == |observations|
      ensures forall t :: 0 <= t < |observations| ==> beta[t] == BetaRow(Problem(Params(), maths, observations), t)
    {
      ghost var p := Problem(Params(), maths, observations);
      var T := |observations|;
      var N := numStates;
      beta := seq(T, _ => seq(N, _ => Log(0.0)));

      var last := T - 1;
      var i := 0;
      while i < N
        invariant 0 <= i <= N
        invariant |beta| == T && forall r :: 0 <= r < T ==> |beta[r]| == N
        invariant forall s :: 0 <= s < i ==> beta[last][s] == Log(0.0)
      {
        beta := beta[last := beta[last][i := Log(0.0)]];
        i := i + 1;
      }

      var t := T - 2;
      while t >= 0
        invariant -1 <= t <= T - 2
        invariant |beta| == T && forall r :: 0 <= r < T ==> |beta[r]| == N
        invariant forall r, s :: t < r < T && 0 <= s < N ==> beta[r][s] == Beta(p, r, s)
      {
        var row := BackwardStep(observations, maths, beta[t + 1], t);
        beta := beta[t := row];
        t := t - 1;
      }
      forall r | 0 <= r < T
        ensures beta[r] == BetaRow(p, r)
      {
      }
    }

    /** The forward total likelihood alone. */
    method CalculateLikelihood(observations: seq<int>, maths: LogMaths) returns (likelihood: LogProb)
      requires Shaped(Params()) && Symbols(observations)
      ensures likelihood == ForwardOf(Problem(Params(), maths, observations)).probability
    {
      var result := Forward(observations, maths);
      likelihood := result.probability;
    }
  }

  // ---------------------------------------------------------------------
  // The C entry points
  // ---------------------------------------------------------------------

  /** The entry points build a model over a fixed alphabet of 256 observation symbols. */
  const Alphabet := 256

  /** What the entry points assume of their buffers. */
  predicate BuffersFit(observations: seq<int>, obsLen: int, transitions: seq<real>, emissions: seq<real>,
                       initialProbs: seq<real>, numStates: int)
  {
    0 <= obsLen <= |observations| && 0 <= numStates &&
    numStates * numStates <= |transitions| && numStates * Alphabet <= |emissions| && numStates <= |initialProbs| &&
    (forall t :: 0 <= t < obsLen ==> 0 <= observations[t])
  }

  /**
   * The model the entry points build: row i of the transition matrix is
   * transitions[i * numStates ..], row i of the emission matrix is
   * emissions[i * 256 ..], and the initial probabilities are the first
   * numStates values.
   */
  function FlatModel(transitions: seq<real>, emissions: seq<real>, initialProbs: seq<real>, numStates: nat): (h: Model)
    requires numStates * numStates <= |transitions| && numStates * Alphabet <= |emissions| && numStates <= |initialProbs|
    ensures Shaped(h) && h.numStates == numStates && h.numObservations == Alphabet
    ensures forall i, j :: 0 <= i < numStates && 0 <= j < numStates ==>
      Layout.Offset(i, j, numStates) < |transitions| && h.transitions[i][j] == transitions[Layout.Offset(i, j, numStates)]
    ensures forall i, j :: 0 <= i < numStates && 0 <= j < Alphabet ==>
      Layout.Offset(i, j, Alphabet) < |emissions| && h.emissions[i][j] == emissions[Layout.Offset(i, j, Alphabet)]
  {
    Layout.RowStartIsProduct(numStates, numStates);
    Layout.RowStartIsProduct(numStates, Alphabet);
    Layout.UnflattenedAt(transitions, numStates, numStates);
    Layout.UnflattenedAt(emissions, numStates, Alphabet);
    Model(numStates, Alphabet, Layout.Unflattened(transitions, numStates, numStates),
          Layout.Unflattened(emissions, numStates, Alphabet), initialProbs[..numStates])
  }

  /** Sets up a decoder from the flat buffers, as both entry points do. */
  method Setup(transitions: seq<real>, emissions: seq<real>, initialProbs: seq<real>, numStates: int)
    returns (hmm: HiddenMarkovModel)
    requires 0 <= numStates
    requires numStates * numStates <= |transitions| && numStates * Alphabet <= |emissions| && numStates <= |initialProbs|
    ensures fresh(hmm) && hmm.Params() == FlatModel(transitions, emissions, initialProbs, numStates)
  {
    hmm := new HiddenMarkovModel(numStates, Alphabet);
    var trans := Layout.Unflatten(transitions, numStates, numStates);
    var emiss := Layout.Unflatten(emissions, numStates, Alphabet);
    var initial := initialProbs[..numStates];
    hmm.SetTransitionMatrix(trans);
    hmm.SetEmissionMatrix(emiss);
    hmm.SetInitialProbabilities(initial);
  }

  /** viterbi_decode: the Viterbi path of the first obsLen observations, one state per observation. */
  method ViterbiDecode(observations: seq<int>, obsLen: int, transitions: seq<real>, emissions: seq<real>,
                       initialProbs: seq<real>, numStates: int, maths: LogMaths)
    returns (path: seq<int>)
    requires BuffersFit(observations, obsLen, transitions, emissions, initialProbs, numStates)
    requires obsLen > 0 ==> numStates >= 1
    ensures |path| == obsLen
    ensures forall t :: 0 <= t < obsLen ==> 0 <= path[t] < numStates
    ensures path == ViterbiOf(Problem(FlatModel(transitions, emissions, initialProbs, numStates), maths, observations[..obsLen])).path
  {
    var hmm := Setup(transitions, emissions, initialProbs, numStates);
    var obs := observations[..obsLen];
    var result := hmm.Viterbi(obs, maths);
    path := result.path;
  }

  /** forward_algorithm: the forward total log-likelihood of the first obsLen observations. */
  method ForwardAlgorithm(observations: seq<int>, obsLen: int, transitions: seq<real>, emissions: seq<real>,
                          initialProbs: seq<real>, numStates: int, maths: LogMaths)
    returns (likelihood: LogProb)
    requires BuffersFit(observations, obsLen, transitions, emissions, initialProbs, numStates)
    ensures obsLen == 0 ==> likelihood == NegInf
    ensures likelihood == ForwardOf(Problem(FlatModel(transitions, emissions, initialProbs, numStates), maths, observations[..obsLen])).probability
  {
    var hmm := Setup(transitions, emissions, initialProbs, numStates);
    var obs := observations[..obsLen];
    var result := hmm.Forward(obs, maths);
    likelihood := result.probability;
  }
}
