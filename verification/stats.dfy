/**
 Roll statistics: the number of completed rolls and a window of the most
 recent roll sums. Each recorded roll adds its sum at the end of the window
 and, once the window would hold more than `HistoryCap` sums, evicts the
 oldest one. The statistics line shows the last `ShownSums` sums.
 */
module Stats {

  /** How many recent sums the history keeps. */
  const HistoryCap: nat := 10

  /** How many of the most recent sums the statistics line shows. */
  const ShownSums: nat := 5

  datatype Statistics = Statistics(rollCount: nat, rollHistory: seq<int>)

  /** The statistics before the first roll. */
  const NoRolls := Statistics(0, [])

  function Min(a: int, b: int): int {
    if a <= b then a else b
  }

  /** Sum of the values, folded from the left as `reduce` does. The sum of
      n values that each lie in 1..6 lies in [n, 6n]. */
  function Sum(xs: seq<int>): (r: int)
    ensures (forall i :: 0 <= i < |xs| ==> 1 <= xs[i] <= 6) ==> |xs| <= r <= 6 * |xs|
  {
    if |xs| == 0 then 0 else Sum(xs[..|xs| - 1]) + xs[|xs| - 1]
  }

  /** `numbers.reduce((acc, num) => acc + num, 0)`: a left-to-right
      accumulation that agrees with `Sum`. */
  method ReduceSum(numbers: seq<int>) returns (total: int)
    ensures total == Sum(numbers)
  {
    total := 0;
    var i := 0;
    while i < |numbers|
      invariant 0 <= i <= |numbers|
      invariant total == Sum(numbers[..i])
    {
      assert numbers[..i + 1][..i] == numbers[..i];
      total := total + numbers[i];
      i := i + 1;
    }
    assert numbers[..i] == numbers;
  }

  /** The last min(k, |xs|) elements of `xs`, oldest first; `slice(-k)` for
      k > 0. */
  function Latest(xs: seq<int>, k: nat): (r: seq<int>)
    ensures |r| == Min(k, |xs|)
    ensures forall i :: 0 <= i < |r| ==> r[i] == xs[|xs| - |r| + i]
  {
    xs[|xs| - Min(k, |xs|)..]
  }

  /** Records one roll: the count goes up by one, the roll's sum is appended,
      and when the history would exceed the cap the single oldest entry is
      dropped; the kept entries stay in order. */
  function UpdateStats(st: Statistics, numbers: seq<int>): (r: Statistics)
    ensures r.rollCount == st.rollCount + 1
    ensures |r.rollHistory| ==
              if |st.rollHistory| < HistoryCap then |st.rollHistory| + 1 else |st.rollHistory|
    ensures |st.rollHistory| <= HistoryCap ==> |r.rollHistory| <= HistoryCap
    ensures r.rollHistory[|r.rollHistory| - 1] == Sum(numbers)
    ensures r.rollHistory[..|r.rollHistory| - 1] == Latest(st.rollHistory, |r.rollHistory| - 1)
  {
    var h := st.rollHistory + [Sum(numbers)];
    Statistics(st.rollCount + 1, if |h| > HistoryCap then h[1..] else h)
  }

  /** With a full history, a roll drops exactly the oldest sum and keeps the
      other nine in order, followed by the new sum. */
  lemma FullHistoryEvictsOldest(st: Statistics, numbers: seq<int>)
    requires |st.rollHistory| == HistoryCap
    ensures UpdateStats(st, numbers).rollHistory == st.rollHistory[1..] + [Sum(numbers)]
  {
  }

  /** The history is the window of the latest `HistoryCap` sums of the whole
      session: recording a roll keeps that true for the log extended by the
      roll's sum. */
  lemma UpdateStatsKeepsWindow(log: seq<int>, st: Statistics, numbers: seq<int>)
    requires st.rollHistory == Latest(log, HistoryCap)
    ensures UpdateStats(st, numbers).rollHistory == Latest(log + [Sum(numbers)], HistoryCap)
  {
  }

  /** The sums shown on the statistics line: the final min(5, |history|)
      entries of the history, oldest first. */
  function LastSums(st: Statistics): (r: seq<int>)
    ensures |r| <= ShownSums && |r| <= |st.rollHistory|
    ensures |r| == ShownSums || |r| == |st.rollHistory|
    ensures forall i :: 0 <= i < |r| ==> r[i] == st.rollHistory[|st.rollHistory| - |r| + i]
  {
    Latest(st.rollHistory, ShownSums)
  }

  /** When the history is the window of the session's sums, the statistics
      line shows the latest five sums of the whole session. */
  lemma LastSumsAreLatestRolls(log: seq<int>, st: Statistics)
    requires st.rollHistory == Latest(log, HistoryCap)
    ensures LastSums(st) == Latest(log, ShownSums)
  {
  }
}
