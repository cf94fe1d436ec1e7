/**
  The maximum drawdown of a series of daily results (backend/routes/advanced_analytics_routes.py,
  portfolio_risk_metrics): the one-pass loop over the running peak is the maximum over all pairs of
  days, and equally over all stretches of days.
*/
module PortfolioRisk {
  import opened Sequences

  /** The running totals of the results. */
  function Cumulative(results: seq<real>): (c: seq<real>)
    ensures |c| == |results|
    ensures forall i :: 0 <= i < |c| ==> c[i] == Sum(results[..i + 1])
  {
    seq(|results|, i requires 0 <= i < |results| => Sum(results[..i + 1]))
  }

  /** How far the total falls from day i to day j. */
  function Fall(c: seq<real>, i: nat, j: nat): real
    requires i <= j < |c|
  {
    c[i] - c[j]
  }

  /** The largest fall from a total to a later one (or to itself). */
  ghost predicate IsMaxDrawdown(c: seq<real>, m: real) {
    && (exists i, j :: 0 <= i <= j < |c| && m == Fall(c, i, j))
    && (forall i, j :: 0 <= i <= j < |c| ==> Fall(c, i, j) <= m)
  }

  function PeakAt(c: seq<real>, j: nat): real
    requires j < |c|
  {
    if j == 0 then c[0]
    else if c[j] > PeakAt(c, j - 1) then c[j] else PeakAt(c, j - 1)
  }

  lemma {:induction false} PeakIsMaximum(c: seq<real>, j: nat)
    requires j < |c|
    ensures forall i :: 0 <= i <= j ==> c[i] <= PeakAt(c, j)
    ensures exists i :: 0 <= i <= j && PeakAt(c, j) == c[i]
  {
    if j == 0 {
      assert PeakAt(c, 0) == c[0];
    } else {
      PeakIsMaximum(c, j - 1);
      var i :| 0 <= i <= j - 1 && PeakAt(c, j - 1) == c[i];
      assert PeakAt(c, j) == c[j] || PeakAt(c, j) == c[i];
    }
  }

  /** The day a drawdown of m is first reached. */
  ghost predicate FirstReached(c: seq<real>, m: real, j: nat) {
    j < |c| && PeakAt(c, j) - c[j] == m && forall k :: 0 <= k < j ==> PeakAt(c, k) - c[k] < m
  }

  function Percentage(m: real, peak: real): real {
    if peak > 0.0 then m / peak * 100.0 else 0.0
  }

  method RunningTotals(results: seq<real>) returns (cumulative: seq<real>)
    ensures cumulative == Cumulative(results)
  {
    cumulative := [];
    var running := 0.0;
    var n := 0;
    while n < |results|
      invariant n <= |results| && |cumulative| == n
      invariant running == Sum(results[..n])
      invariant forall i :: 0 <= i < n ==> cumulative[i] == Sum(results[..i + 1])
    {
      assert results[..n + 1][..n] == results[..n];
      running := running + results[n];
      cumulative := cumulative + [running];
      n := n + 1;
    }
  }

  method DrawdownFromPeak(cumulative: seq<real>) returns (maxDd: real, maxDdPct: real)
    requires cumulative != []
    ensures IsMaxDrawdown(cumulative, maxDd)
    ensures maxDd == 0.0 ==> maxDdPct == 0.0
    ensures maxDd > 0.0 ==>
              exists j :: FirstReached(cumulative, maxDd, j) && maxDdPct == Percentage(maxDd, PeakAt(cumulative, j))
  {
    hide Percentage, IsMaxDrawdown;
    var peak := cumulative[0];
    maxDd, maxDdPct := 0.0, 0.0;
    ghost var first := 0;
    var k := 0;
    while k < |cumulative|
      invariant k <= |cumulative|
      invariant peak == if k == 0 then cumulative[0] else PeakAt(cumulative, k - 1)
      invariant maxDd >= 0.0 && (maxDd == 0.0 ==> maxDdPct == 0.0)
      invariant forall j :: 0 <= j < k ==> PeakAt(cumulative, j) - cumulative[j] <= maxDd
      invariant maxDd > 0.0 ==> first < k && FirstReached(cumulative, maxDd, first)
                                && maxDdPct == Percentage(maxDd, PeakAt(cumulative, first))
    {
      var total := cumulative[k];
      if total > peak {
        peak := total;
      }
      assert peak == PeakAt(cumulative, k);
      var dd := peak - total;
      if dd > maxDd {
        maxDd := dd;
        maxDdPct := Percentage(dd, peak);
        first := k;
      }
      k := k + 1;
    }
    DrawdownOfPeaks(cumulative, maxDd, first);
  }

  /** Fewer than two days report zero; otherwise the loop's figures. */
  method MaxDrawdown(results: seq<real>) returns (maxDd: real, maxDdPct: real)
    ensures |results| < 2 ==> maxDd == 0.0 && maxDdPct == 0.0
    ensures |results| >= 1 ==> IsMaxDrawdown(Cumulative(results), maxDd)
    ensures maxDd == 0.0 ==> maxDdPct == 0.0
    ensures maxDd > 0.0 ==>
              exists j :: FirstReached(Cumulative(results), maxDd, j)
                          && maxDdPct == Percentage(maxDd, PeakAt(Cumulative(results), j))
  {
    if |results| < 2 {
      if |results| == 1 {
        assert Fall(Cumulative(results), 0, 0) == 0.0;
      }
      return 0.0, 0.0;
    }
    var cumulative := RunningTotals(results);
    maxDd, maxDdPct := DrawdownFromPeak(cumulative);
  }

  /** The best fall from a peak is the best fall from any earlier total. */
  lemma DrawdownOfPeaks(c: seq<real>, m: real, at: nat)
    requires c != [] && m >= 0.0
    requires forall j :: 0 <= j < |c| ==> PeakAt(c, j) - c[j] <= m
    requires m > 0.0 ==> FirstReached(c, m, at)
    ensures IsMaxDrawdown(c, m)
  {
    forall i, j | 0 <= i <= j < |c| ensures Fall(c, i, j) <= m {
      PeakIsMaximum(c, j);
    }
    if m > 0.0 {
      PeakIsMaximum(c, at);
      var i :| 0 <= i <= at && PeakAt(c, at) == c[i];
      assert m == Fall(c, i, at);
    } else {
      assert m == Fall(c, 0, 0);
    }
  }

  /** There is only one such number: the method's contract determines its result. */
  lemma MaxDrawdownUnique(c: seq<real>, m: real, n: real)
    requires IsMaxDrawdown(c, m) && IsMaxDrawdown(c, n)
    ensures m == n
  {
    var i, j :| 0 <= i <= j < |c| && m == Fall(c, i, j);
    var k, l :| 0 <= k <= l < |c| && n == Fall(c, k, l);
    assert Fall(c, i, j) <= n && Fall(c, k, l) <= m;
  }

  /**
    The percentage is that of a single fall as well: there is one day on which the figure is first
    reached, and of the high before it the percentage is the share lost, if the high was positive.
  */
  lemma PercentageIsShareOfHigh(c: seq<real>, m: real, j: nat, k: nat)
    requires FirstReached(c, m, j) && FirstReached(c, m, k) && m > 0.0
    ensures j == k
    ensures var high, share := PeakAt(c, j), Percentage(m, PeakAt(c, j));
            && (forall i :: 0 <= i <= j ==> c[i] <= high)
            && (exists i :: 0 <= i < j && c[i] == high && Fall(c, i, j) == m)
            && (if high > 0.0 then share * high == 100.0 * m else share == 0.0)
  {
    PeakIsMaximum(c, j);
    var i :| 0 <= i <= j && PeakAt(c, j) == c[i];
    assert Fall(c, i, j) == m;
  }

  /** What the days from i up to j lose together. */
  function StretchLoss(results: seq<real>, i: nat, j: nat): real
    requires i <= j <= |results|
  {
    -Sum(results[i..j])
  }

  lemma FallIsStretch(results: seq<real>, i: nat, j: nat)
    requires i <= j < |results|
    ensures Fall(Cumulative(results), i, j) == StretchLoss(results, i + 1, j + 1)
  {
    SumConcat(results[..i + 1], results[i + 1..j + 1]);
    assert results[..j + 1] == results[..i + 1] + results[i + 1..j + 1];
  }

  /** The worst stretch of consecutive days after the first; an empty stretch loses nothing. */
  ghost predicate IsWorstStretch(results: seq<real>, m: real) {
    && (exists i, j :: 1 <= i <= j <= |results| && m == StretchLoss(results, i, j))
    && (forall i, j :: 1 <= i <= j <= |results| ==> StretchLoss(results, i, j) <= m)
  }

  /** The maximum drawdown is the loss over the worst stretch of days after the first, or zero. */
  lemma DrawdownIsWorstStretch(results: seq<real>, m: real)
    requires results != []
    ensures IsMaxDrawdown(Cumulative(results), m) <==> IsWorstStretch(results, m)
  {
    hide Sum, Cumulative, Fall, StretchLoss;
    var c := Cumulative(results);
    if IsMaxDrawdown(c, m) {
      var i, j :| 0 <= i <= j < |c| && m == Fall(c, i, j);
      FallIsStretch(results, i, j);
      forall k, l | 1 <= k <= l <= |results| ensures StretchLoss(results, k, l) <= m {
        FallIsStretch(results, k - 1, l - 1);
      }
    }
    if IsWorstStretch(results, m) {
      var k, l :| 1 <= k <= l <= |results| && m == StretchLoss(results, k, l);
      FallIsStretch(results, k - 1, l - 1);
      forall i, j | 0 <= i <= j < |c| ensures Fall(c, i, j) <= m {
        FallIsStretch(results, i, j);
      }
    }
  }

  /** So the first day's own result never matters, however bad it was. */
  lemma FirstDayIrrelevant(first: real, other: real, rest: seq<real>, m: real)
    ensures IsWorstStretch([first] + rest, m) <==> IsWorstStretch([other] + rest, m)
  {
    hide Sum;
    var a, b := [first] + rest, [other] + rest;
    forall i, j | 1 <= i <= j <= |a| ensures StretchLoss(a, i, j) == StretchLoss(b, i, j) {
      assert a[i..j] == b[i..j];
    }
  }
}
