/** The `running_avg<T>` class: a fixed-length circular window whose mean
    is maintained incrementally, one subtraction and one addition per
    update. Samples and the mean are reals (the class accumulates in
    `float`; rounding is not modelled). */
module RunningAverage {

  /** Sum of a window, folding from the left. */
  function Sum(s: seq<real>): real
  {
    if |s| == 0 then 0.0 else Sum(s[..|s| - 1]) + s[|s| - 1]
  }

  lemma {:induction false} SumConcat(a: seq<real>, b: seq<real>)
    ensures Sum(a + b) == Sum(a) + Sum(b)
    decreases |b|
  {
    if |b| == 0 {
      assert a + b == a;
    } else {
      assert (a + b)[..|a + b| - 1] == a + b[..|b| - 1];
      SumConcat(a, b[..|b| - 1]);
    }
  }

  /** Overwriting one element changes the sum by exactly the difference. */
  lemma SumUpdate(s: seq<real>, i: int, x: real)
    requires 0 <= i < |s|
    ensures Sum(s[i := x]) == Sum(s) - s[i] + x
  {
    assert s == s[..i] + [s[i]] + s[i + 1..];
    assert s[i := x] == s[..i] + [x] + s[i + 1..];
    SumConcat(s[..i] + [s[i]], s[i + 1..]);
    SumConcat(s[..i], [s[i]]);
    SumConcat(s[..i] + [x], s[i + 1..]);
    SumConcat(s[..i], [x]);
    assert Sum([s[i]]) == s[i] by { assert [s[i]][..0] == []; }
    assert Sum([x]) == x by { assert [x][..0] == []; }
  }

  lemma {:induction false} SumConstant(n: nat, c: real)
    ensures Sum(seq(n, _ => c)) == n as real * c
  {
    if n > 0 {
      assert seq(n, _ => c)[..n - 1] == seq(n - 1, _ => c);
      SumConstant(n - 1, c);
    }
  }

  /** Summing a rotated window gives the same total. */
  lemma SumRotation(s: seq<real>, k: int)
    requires 0 <= k <= |s|
    ensures Sum(s[k..] + s[..k]) == Sum(s)
  {
    SumConcat(s[k..], s[..k]);
    SumConcat(s[..k], s[k..]);
    assert s[..k] + s[k..] == s;
  }

  /** The O(1) mean update shared by `running_avg::update` and the goal
      averaging of `ceOptimized`: the sample leaving the window is taken
      out of the mean and the new one is put in, each weighted 1/window. */
  function ReplaceInMean(mean: real, window: nat, leaving: real, input: real): real
    requires window > 0
  {
    mean - leaving / window as real + input / window as real
  }

  /** If `mean` is the mean of the first `window` slots of `memory`, then
      replacing slot `slot` and adjusting the mean keeps that relation. */
  lemma ReplaceInMeanKeepsMean(memory: seq<real>, window: nat, slot: nat, mean: real, input: real)
    requires 0 < window <= |memory| && slot < window
    requires mean == Sum(memory[..window]) / window as real
    ensures ReplaceInMean(mean, window, memory[slot], input)
         == Sum(memory[slot := input][..window]) / window as real
  {
    assert memory[slot := input][..window] == memory[..window][slot := input];
    SumUpdate(memory[..window], slot, input);
    var w := window as real;
    var total := Sum(memory[..window]);
    assert (total - memory[slot] + input) / w == total / w - memory[slot] / w + input / w;
  }

  /** The state of one `running_avg` object: `memory` holds `avg_len`
      samples, `position` is the next slot to overwrite. */
  datatype RunningAvg = RunningAvg(memory: seq<real>, position: int, avg: real)
  {
    /** `avg_len`, fixed at construction. */
    function AvgLen(): nat
    {
      |memory|
    }

    /** The shape every update relies on: a non-empty window and an
        in-range write slot. */
    predicate WellFormed()
    {
      |memory| > 0 && 0 <= position < |memory|
    }

    /** The mean invariant: `avg` is the arithmetic mean of the window. */
    predicate Valid()
    {
      WellFormed() && avg == Sum(memory) / |memory| as real
    }
  }

  /** The constructor: a zero-filled window of the given length. */
  function Create(length: int): (ra: RunningAvg)
    requires length > 0
    ensures ra.Valid()
    ensures ra.AvgLen() == length && ra.position == 0
    ensures forall i :: 0 <= i < length ==> ra.memory[i] == 0.0
  {
    SumConstant(length, 0.0);
    RunningAvg(seq(length, _ => 0.0), 0, 0.0)
  }

  /** `running_avg::update`: the window after storing `input`, and the
      mean the call returns. */
  function Update(ra: RunningAvg, input: real): (r: (RunningAvg, real))
    requires ra.WellFormed()
    ensures r.0.WellFormed() && r.0.AvgLen() == ra.AvgLen()
    ensures r.0.memory == ra.memory[ra.position := input]
    ensures r.0.position == (ra.position + 1) % ra.AvgLen()
    ensures r.1 == r.0.avg
    ensures ra.Valid() ==> r.0.Valid()
  {
    var n := |ra.memory|;
    var avg := ReplaceInMean(ra.avg, n, ra.memory[ra.position], input);
    var next := if ra.position + 1 == n then 0 else ra.position + 1;
    if ra.Valid() then
      assert ra.memory[..n] == ra.memory;
      assert ra.memory[ra.position := input][..n] == ra.memory[ra.position := input];
      ReplaceInMeanKeepsMean(ra.memory, n, ra.position, ra.avg, input);
      (RunningAvg(ra.memory[ra.position := input], next, avg), avg)
    else
      (RunningAvg(ra.memory[ra.position := input], next, avg), avg)
  }

  /** Index of the slot written `j` updates after one at `position`, in a
      window of length `n` (`position` advances by one, wrapping at `n`). */
  function SlotAfter(position: int, j: int, n: int): int
  {
    if position + j < n then position + j else position + j - n
  }

  /** The samples `xs` pushed one after another, oldest first. */
  function Feed(ra: RunningAvg, xs: seq<real>): (r: RunningAvg)
    requires ra.WellFormed()
    ensures r.WellFormed() && r.AvgLen() == ra.AvgLen()
    ensures |xs| < ra.AvgLen() ==> r.position == SlotAfter(ra.position, |xs|, ra.AvgLen())
    decreases |xs|
  {
    if |xs| == 0 then ra else Update(Feed(ra, xs[..|xs| - 1]), xs[|xs| - 1]).0
  }

  /** Pushing `a` then `b` is pushing `a + b`. */
  lemma {:induction false} FeedConcat(ra: RunningAvg, a: seq<real>, b: seq<real>)
    requires ra.WellFormed()
    ensures Feed(ra, a + b) == Feed(Feed(ra, a), b)
    decreases |b|
  {
    if |b| == 0 {
      assert a + b == a;
    } else {
      assert (a + b)[..|a + b| - 1] == a + b[..|b| - 1];
      FeedConcat(ra, a, b[..|b| - 1]);
    }
  }

  /** The mean invariant holds after any number of updates. */
  lemma {:induction false} FeedKeepsMean(ra: RunningAvg, xs: seq<real>)
    requires ra.Valid()
    ensures Feed(ra, xs).Valid()
    decreases |xs|
  {
    if |xs| > 0 {
      FeedKeepsMean(ra, xs[..|xs| - 1]);
    }
  }

  /** After `k <= avg_len` pushes the j-th pushed sample sits `j` slots
      after the starting position, and the slots not yet reached still
      hold what they held before. */
  lemma {:induction false} FeedSlots(ra: RunningAvg, xs: seq<real>)
    requires ra.WellFormed() && |xs| <= ra.AvgLen()
    ensures forall j :: 0 <= j < |xs| ==>
              Feed(ra, xs).memory[SlotAfter(ra.position, j, ra.AvgLen())] == xs[j]
    ensures forall j :: |xs| <= j < ra.AvgLen() ==>
              Feed(ra, xs).memory[SlotAfter(ra.position, j, ra.AvgLen())]
              == ra.memory[SlotAfter(ra.position, j, ra.AvgLen())]
    decreases |xs|
  {
    if |xs| > 0 {
      var k := |xs| - 1;
      FeedSlots(ra, xs[..k]);
      var before := Feed(ra, xs[..k]);
      assert before.position == SlotAfter(ra.position, k, ra.AvgLen());
      assert Feed(ra, xs).memory == before.memory[before.position := xs[k]];
    }
  }

  /** Exactly `avg_len` pushes replace the whole window: the reported mean
      is the arithmetic mean of those pushes, whatever came before. */
  lemma MeanOfFullWindow(ra: RunningAvg, xs: seq<real>)
    requires ra.Valid() && |xs| == ra.AvgLen()
    ensures Feed(ra, xs).avg == Sum(xs) / |xs| as real
  {
    var n := ra.AvgLen();
    var p := ra.position;
    var r := Feed(ra, xs);
    FeedSlots(ra, xs);
    FeedKeepsMean(ra, xs);
    var rotated := xs[n - p..] + xs[..n - p];
    forall i | 0 <= i < n
      ensures r.memory[i] == rotated[i]
    {
      if i < p {
        assert SlotAfter(p, i + n - p, n) == i;
      } else {
        assert SlotAfter(p, i - p, n) == i;
      }
    }
    assert r.memory == rotated;
    SumRotation(xs, n - p);
  }

  /** Mean of the last `avg_len` pushes, for any number of pushes at least
      `avg_len`. */
  lemma MeanOfLastWindow(ra: RunningAvg, xs: seq<real>)
    requires ra.Valid() && |xs| >= ra.AvgLen()
    ensures Feed(ra, xs).avg == Sum(xs[|xs| - ra.AvgLen()..]) / ra.AvgLen() as real
  {
    var k := |xs| - ra.AvgLen();
    assert xs == xs[..k] + xs[k..];
    FeedConcat(ra, xs[..k], xs[k..]);
    FeedKeepsMean(ra, xs[..k]);
    MeanOfFullWindow(Feed(ra, xs[..k]), xs[k..]);
  }

  /** Pushing the same value `avg_len` times makes the mean that value. */
  lemma MeanOfConstantWindow(ra: RunningAvg, c: real)
    requires ra.Valid()
    ensures Feed(ra, seq(ra.AvgLen(), _ => c)).avg == c
  {
    MeanOfFullWindow(ra, seq(ra.AvgLen(), _ => c));
    SumConstant(ra.AvgLen(), c);
  }
}
