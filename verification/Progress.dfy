/**
 * Progress reporting of generateImage (src/App.jsx): after the k-th of the
 * nine cells the app reports Math.round(k / 9 * 100) percent.
 */
module Progress {
  import opened Layout

  /**
   * The percentage reported once `done` cells are finished, in exact integer
   * arithmetic: round(100 * done / 9) == floor((200 * done + 9) / 18).
   */
  function Percent(done: nat): nat {
    (200 * done + 9) / 18
  }

  /** Math.round on an exact real: halves round up. */
  function RoundHalfUp(r: real): int {
    (r + 0.5).Floor
  }

  /** Percent(done) is the rounded share 100 * done / 9. */
  lemma PercentIsRoundedShare(done: nat)
    ensures Percent(done) == RoundHalfUp(100.0 * done as real / 9.0)
  {
  }

  /** More finished cells always report a higher percentage. */
  lemma PercentStrictlyIncreasing(a: nat, b: nat)
    requires a < b
    ensures Percent(a) < Percent(b)
  {
  }

  /** The percentages reported after each of the first n cells, in order. */
  function Trace(n: nat): (t: seq<nat>)
    ensures |t| == n
    ensures forall k :: 0 <= k < n ==> t[k] == Percent(k + 1)
  {
    if n == 0 then [] else Trace(n - 1) + [Percent(n)]
  }

  /**
   * A whole run reports 0 and then one value per cell: ten values, strictly
   * increasing, from 0 to exactly 100.
   */
  lemma RunTraceIncreasesToHundred()
    ensures var t := [0] + Trace(CellCount);
      |t| == CellCount + 1 && t[0] == 0 && t[CellCount] == 100 &&
      forall a, b :: 0 <= a < b < |t| ==> t[a] < t[b]
  {
  }
}
