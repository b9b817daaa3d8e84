/**
 * Timing decomposition of one probe.
 *
 * The transfer engine reports seven cumulative checkpoints, all measured from
 * the start of the request.  The probe turns them into per-phase durations by
 * keeping a running total: each phase contributes its reported value minus the
 * running total, clamped at zero, and the running total grows by that amount.
 * Timings are exact reals here; floating-point rounding is not modelled.
 */
module Timing {

  /** The seven checkpoints, in the order in which the probe processes them. */
  datatype Phase = NameLookup | Connect | AppConnect | PreTransfer | StartTransfer | Redirect | Total

  const Phases: seq<Phase> := [NameLookup, Connect, AppConnect, PreTransfer, StartTransfer, Redirect, Total]

  /** The position of a phase in the processing order; every phase has one. */
  function IndexOf(phase: Phase): (k: nat)
    ensures k < |Phases| && Phases[k] == phase
  {
    match phase
    case NameLookup => 0
    case Connect => 1
    case AppConnect => 2
    case PreTransfer => 3
    case StartTransfer => 4
    case Redirect => 5
    case Total => 6
  }

  /** IndexOf inverts the processing order, so the seven phases are distinct. */
  lemma PhasesIndexed()
    ensures forall i :: 0 <= i < |Phases| ==> IndexOf(Phases[i]) == i
  {
  }

  function Max(a: real, b: real): real
  {
    if a < b then b else a
  }

  /**
   * calc_diff: the part of `current` not yet covered by `running`, never negative.
   * The result is max(0, current - running), so adding it to the running total
   * lifts the total to max(running, current).
   */
  function CalcDiff(current: real, running: real): (d: real)
    ensures d >= 0.0 && d >= current - running
    ensures d == 0.0 || d == current - running
    ensures running + d == Max(running, current)
  {
    if current - running < 0.0 then 0.0 else current - running
  }

  /** The running total after the first k phases have been processed. */
  function Running(reported: seq<real>, k: nat): real
    requires k <= |reported|
  {
    if k == 0 then 0.0
    else Running(reported, k - 1) + CalcDiff(reported[k - 1], Running(reported, k - 1))
  }

  /**
   * The diffs of the first k phases, in phase order: each phase's value is
   * clamped against the running total left by the phases before it.
   */
  function DecomposeFirst(reported: seq<real>, k: nat): (diffs: seq<real>)
    requires k <= |reported|
    ensures |diffs| == k
    ensures forall j :: 0 <= j < k ==> diffs[j] == CalcDiff(reported[j], Running(reported, j))
  {
    if k == 0 then []
    else DecomposeFirst(reported, k - 1) + [CalcDiff(reported[k - 1], Running(reported, k - 1))]
  }

  /** The per-phase diffs produced from the cumulative values; none is negative. */
  function Decompose(reported: seq<real>): (diffs: seq<real>)
    ensures |diffs| == |reported|
    ensures forall k :: 0 <= k < |diffs| ==> diffs[k] >= 0.0
  {
    DecomposeFirst(reported, |reported|)
  }

  /** The largest of 0 and the first k reported values: an independent reference for Running. */
  function PrefixMax(reported: seq<real>, k: nat): (m: real)
    requires k <= |reported|
    ensures m >= 0.0
    ensures forall i :: 0 <= i < k ==> reported[i] <= m
    ensures m == 0.0 || exists i :: 0 <= i < k && reported[i] == m
  {
    if k == 0 then 0.0 else Max(PrefixMax(reported, k - 1), reported[k - 1])
  }

  /** The sum of the first k elements. */
  function SumFirst(s: seq<real>, k: nat): real
    requires k <= |s|
  {
    if k == 0 then 0.0 else SumFirst(s, k - 1) + s[k - 1]
  }

  function Sum(s: seq<real>): real
  {
    SumFirst(s, |s|)
  }

  ghost predicate NonNegative(s: seq<real>)
  {
    forall i :: 0 <= i < |s| ==> s[i] >= 0.0
  }

  ghost predicate NonDecreasing(s: seq<real>)
  {
    forall i, j :: 0 <= i <= j < |s| ==> s[i] <= s[j]
  }

  /** After each phase the running total is the running maximum of 0 and the values seen so far. */
  lemma {:induction false} RunningIsPrefixMax(reported: seq<real>, k: nat)
    requires k <= |reported|
    ensures Running(reported, k) == PrefixMax(reported, k)
  {
    if k > 0 {
      RunningIsPrefixMax(reported, k - 1);
    }
  }

  /** Each diff is the amount by which its phase advances the running total. */
  lemma DecomposeAt(reported: seq<real>, k: nat)
    requires k < |reported|
    ensures Decompose(reported)[k] == Running(reported, k + 1) - Running(reported, k)
  {
  }

  /**
   * Per-phase amounts that each advance the running total by exactly their own
   * size add up, over the first k phases, to the running total after k phases.
   */
  lemma {:induction false} SumOfStepsIsRunning(reported: seq<real>, diffs: seq<real>, k: nat)
    requires |diffs| == |reported| && k <= |reported|
    requires forall j :: 0 <= j < |diffs| ==> diffs[j] == Running(reported, j + 1) - Running(reported, j)
    ensures SumFirst(diffs, k) == Running(reported, k)
  {
    if k > 0 {
      SumOfStepsIsRunning(reported, diffs, k - 1);
    }
  }

  /** The diffs of all phases add up to max(0, largest reported value). */
  lemma DiffsSumToMax(reported: seq<real>)
    ensures Sum(Decompose(reported)) == PrefixMax(reported, |reported|)
  {
    forall j | 0 <= j < |reported|
      ensures Decompose(reported)[j] == Running(reported, j + 1) - Running(reported, j)
    {
      DecomposeAt(reported, j);
    }
    SumOfStepsIsRunning(reported, Decompose(reported), |reported|);
    RunningIsPrefixMax(reported, |reported|);
  }

  /** For well-behaved timers the running maximum is simply the latest value. */
  lemma {:induction false} MonotonePrefixMax(reported: seq<real>, k: nat)
    requires NonNegative(reported) && NonDecreasing(reported)
    requires 0 < k <= |reported|
    ensures PrefixMax(reported, k) == reported[k - 1]
  {
    if k > 1 {
      MonotonePrefixMax(reported, k - 1);
    }
  }

  /**
   * For non-negative, non-decreasing cumulative values the diffs are exactly the
   * successive differences and add up to the last reported value.
   */
  lemma MonotoneDecompose(reported: seq<real>)
    requires NonNegative(reported) && NonDecreasing(reported)
    ensures |reported| > 0 ==> Decompose(reported)[0] == reported[0]
    ensures forall k :: 0 < k < |reported| ==> Decompose(reported)[k] == reported[k] - reported[k - 1]
    ensures |reported| > 0 ==> Sum(Decompose(reported)) == reported[|reported| - 1]
  {
    var diffs := Decompose(reported);
    forall k | 0 < k < |reported|
      ensures diffs[k] == reported[k] - reported[k - 1]
    {
      RunningIsPrefixMax(reported, k);
      MonotonePrefixMax(reported, k);
    }
    if |reported| > 0 {
      DiffsSumToMax(reported);
      MonotonePrefixMax(reported, |reported|);
    }
  }

  /** A worked example: equal adjacent checkpoints give zero-length phases. */
  lemma ExampleDecomposition()
    ensures Decompose([0.10, 0.25, 0.25, 0.26, 0.50, 0.50, 0.50])
         == [0.10, 0.15, 0.0, 0.01, 0.24, 0.0, 0.0]
  {
    var reported := [0.10, 0.25, 0.25, 0.26, 0.50, 0.50, 0.50];
    MonotoneDecompose(reported);
  }
}
