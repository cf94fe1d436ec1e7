/**
  Value at risk from simulated final values (backend/routes/montecarlo_routes.py, monte_carlo_var).
  The random draws are inputs; what is proved is about the simulation loop and the order statistics.
*/
module MonteCarlo {
  import opened Permutations
  import opened Sequences

  function Growth(value: real, draws: seq<real>): real {
    if draws == [] then value else Growth(value, draws[..|draws| - 1]) * (1.0 + draws[|draws| - 1])
  }

  predicate Ascending(s: seq<real>) {
    forall i, j :: 0 <= i < j < |s| ==> s[i] <= s[j]
  }

  predicate Descending(s: seq<real>) {
    forall i, j :: 0 <= i < j < |s| ==> s[i] >= s[j]
  }

  function Insert(x: real, s: seq<real>): seq<real> {
    if s == [] || s[|s| - 1] <= x then s + [x] else Insert(x, s[..|s| - 1]) + [s[|s| - 1]]
  }

  /** list.sort(): the ascending arrangement of the same values. */
  function Sort(s: seq<real>): (r: seq<real>)
    ensures |r| == |s|
  {
    if s == [] then [] else
    var rest := Sort(s[..|s| - 1]);
    InsertSorted(s[|s| - 1], rest);
    Insert(s[|s| - 1], rest)
  }

  lemma {:induction false} InsertSorted(x: real, s: seq<real>)
    ensures multiset(Insert(x, s)) == multiset(s) + multiset{x} && |Insert(x, s)| == |s| + 1
    ensures Ascending(s) ==> Ascending(Insert(x, s))
    ensures forall y :: y in Insert(x, s) ==> y == x || y in s
  {
    if s != [] && s[|s| - 1] > x {
      var front, last := s[..|s| - 1], s[|s| - 1];
      InsertSorted(x, front);
      assert s == front + [last];
      if Ascending(s) {
        forall i | 0 <= i < |front| + 1 ensures Insert(x, front)[i] <= last {
          assert Insert(x, front)[i] in Insert(x, front);
        }
      }
    }
  }

  lemma {:induction false} SortSorted(s: seq<real>)
    ensures Ascending(Sort(s)) && multiset(Sort(s)) == multiset(s)
  {
    if s != [] {
      hide Ascending;
      var front, last := s[..|s| - 1], s[|s| - 1];
      SortSorted(front);
      InsertSorted(last, Sort(front));
      assert s == front + [last];
    } else {
      assert Sort(s) == s;
    }
  }

  function Reverse(s: seq<real>): (r: seq<real>)
    ensures |r| == |s| && forall i :: 0 <= i < |s| ==> r[i] == s[|s| - 1 - i]
  {
    seq(|s|, i requires 0 <= i < |s| => s[|s| - 1 - i])
  }

  function Losses(total: real, finals: seq<real>): (r: seq<real>)
    ensures |r| == |finals| && forall i :: 0 <= i < |r| ==> r[i] == total - finals[i]
  {
    seq(|finals|, i requires 0 <= i < |finals| => total - finals[i])
  }

  function Mean(xs: seq<real>): real
    requires xs != []
  {
    Sum(xs) / |xs| as real
  }

  function VarIndex(n: nat, confidence: real): (i: nat)
    requires confidence <= 1.0
  {
    ScaledNonNegative(n, 1.0 - confidence);
    (n as real * (1.0 - confidence)).Floor
  }

  /** The position the VaR is read from: the code falls back to the last one. */
  function Rank(n: nat, confidence: real): (i: nat)
    requires n > 0 && confidence <= 1.0
    ensures i < n
  {
    if VarIndex(n, confidence) < n then VarIndex(n, confidence) else n - 1
  }

  lemma ScaledNonNegative(n: nat, x: real)
    requires x >= 0.0
    ensures n as real * x >= 0.0
  {
  }

  datatype Report = Report(
    value: real, cvar: real, mean: real, median: real, best: real, worst: real, percentiles: seq<real>)

  const PERCENTS: seq<nat> := [1, 5, 10, 25, 50, 75, 90, 95, 99]

  /** The entry the code reads for a percentile of an ascending list. */
  function Percentile(sorted: seq<real>, p: nat): real
    requires sorted != []
  {
    var i := |sorted| * p / 100;
    if i < |sorted| then sorted[i] else sorted[|sorted| - 1]
  }

  /** One simulated path per row of draws. */
  method Simulate(total: real, draws: seq<seq<real>>) returns (finals: seq<real>)
    ensures |finals| == |draws|
    ensures forall i :: 0 <= i < |draws| ==> finals[i] == Growth(total, draws[i])
  {
    finals := [];
    var i := 0;
    while i < |draws|
      invariant i <= |draws| && |finals| == i
      invariant forall k :: 0 <= k < i ==> finals[k] == Growth(total, draws[k])
    {
      var portfolio := total;
      var day := 0;
      while day < |draws[i]|
        invariant day <= |draws[i]|
        invariant portfolio == Growth(total, draws[i][..day])
      {
        assert draws[i][..day + 1][..day] == draws[i][..day];
        portfolio := portfolio * (1.0 + draws[i][day]);
        day := day + 1;
      }
      assert draws[i][..day] == draws[i];
      finals := finals + [portfolio];
      i := i + 1;
    }
  }

  method Percentiles(sorted: seq<real>) returns (percentiles: seq<real>)
    requires sorted != []
    ensures |percentiles| == |PERCENTS|
    ensures forall k :: 0 <= k < |PERCENTS| ==> percentiles[k] == Percentile(sorted, PERCENTS[k])
  {
    percentiles := [];
    var k := 0;
    while k < |PERCENTS|
      invariant k <= |PERCENTS| && |percentiles| == k
      invariant forall j :: 0 <= j < k ==> percentiles[j] == Percentile(sorted, PERCENTS[j])
    {
      var i := |sorted| * PERCENTS[k] / 100;
      percentiles := percentiles + [sorted[if i < |sorted| - 1 then i else |sorted| - 1]];
      k := k + 1;
    }
  }

  method ValueAtRisk(total: real, finals: seq<real>, confidence: real) returns (r: Report)
    requires finals != [] && confidence <= 1.0
    ensures r.value == Var(total, finals, confidence) && r.cvar == Cvar(total, finals, confidence)
    ensures r.mean == Mean(Sort(finals)) && r.median == Sort(finals)[|finals| / 2]
    ensures r.best in finals && r.worst in finals && forall v :: v in finals ==> r.worst <= v <= r.best
    ensures |r.percentiles| == |PERCENTS|
    ensures forall k :: 0 <= k < |PERCENTS| ==> r.percentiles[k] == Percentile(Sort(finals), PERCENTS[k])
  {
    hide Sort, Mean, Percentile, Reverse, Losses, Var, Cvar;
    var sorted := Sort(finals);
    var losses := Reverse(Sort(Losses(total, sorted)));
    ReadOff(total, finals, confidence);
    var index := VarIndex(|losses|, confidence);
    var value := if index < |losses| then losses[index] else losses[|losses| - 1];
    var tail := if index < |losses| then losses[..index + 1] else losses;
    var cvar := Mean(tail);
    var percentiles := Percentiles(sorted);
    Extremes(finals);
    r := Report(value, cvar, Mean(sorted), sorted[|sorted| / 2], sorted[|sorted| - 1], sorted[0], percentiles);
  }

  /** The entries and the tail that the code reads off the descending losses. */
  lemma ReadOff(total: real, finals: seq<real>, confidence: real)
    requires finals != [] && confidence <= 1.0
    ensures var losses := Reverse(Sort(Losses(total, Sort(finals))));
            var index := VarIndex(|losses|, confidence);
            var tail := if index < |losses| then losses[..index + 1] else losses;
            && |losses| == |finals| && tail != []
            && Var(total, finals, confidence) == (if index < |losses| then losses[index] else losses[|losses| - 1])
            && Cvar(total, finals, confidence) == Mean(tail)
  {
    hide Sort, VarIndex, Mean, Reverse;
    MirroredLosses(total, finals);
    var losses := Losses(total, Sort(finals));
    assert losses[..|losses|] == losses;
  }

  lemma Extremes(finals: seq<real>)
    requires finals != []
    ensures var s := Sort(finals);
            s[|s| - 1] in finals && s[0] in finals && forall v :: v in finals ==> s[0] <= v <= s[|s| - 1]
  {
    hide Sort;
    SortSorted(finals);
    var s := Sort(finals);
    assert s[|s| - 1] in multiset(s) && s[0] in multiset(s);
    forall v | v in finals ensures s[0] <= v <= s[|s| - 1] {
      assert v in multiset(s);
    }
  }

  /** A path compounds: its draws in two parts grow the value one after the other, each draw by its own factor. */
  lemma {:induction false} GrowthCompounds(value: real, early: seq<real>, late: seq<real>, draw: real)
    ensures Growth(value, []) == value && Growth(value, [draw]) == value + value * draw
    ensures Growth(value, early + late) == Growth(Growth(value, early), late)
  {
    assert [draw][..0] == [];
    if late == [] {
      assert early + late == early;
    } else {
      GrowthCompounds(value, early, late[..|late| - 1], draw);
      assert (early + late)[..|early + late| - 1] == early + late[..|late| - 1];
    }
  }

  // ----- sorted arrangements are unique -----

  lemma LastIsLargest(a: seq<real>, x: real)
    requires Ascending(a) && x in a
    ensures x <= a[|a| - 1]
  {
  }

  lemma SameLast(a: seq<real>, b: seq<real>)
    requires Ascending(a) && Ascending(b) && multiset(a) == multiset(b) && a != []
    ensures |a| == |b| && a[|a| - 1] == b[|b| - 1]
    ensures multiset(a[..|a| - 1]) == multiset(b[..|b| - 1])
  {
    hide Ascending;
    var n := |a| - 1;
    assert |multiset(a)| == |a| && |multiset(b)| == |b|;
    assert a[n] in multiset(b) && b[n] in multiset(a);
    LastIsLargest(b, a[n]);
    LastIsLargest(a, b[n]);
    DropLast(a, b);
  }

  lemma {:induction false} SortedUnique(a: seq<real>, b: seq<real>)
    requires Ascending(a) && Ascending(b) && multiset(a) == multiset(b)
    ensures a == b
    decreases |a|
  {
    if a == [] {
      NothingLeft(b);
    } else {
      var n := |a| - 1;
      SameLast(a, b);
      SortedUnique(a[..n], b[..n]);
      assert a == a[..n] + [a[n]] && b == b[..n] + [b[n]];
    }
  }

  lemma {:induction false} ReverseSame(s: seq<real>)
    ensures multiset(Reverse(s)) == multiset(s)
  {
    if s != [] {
      var n := |s| - 1;
      ReverseSame(s[..n]);
      assert s == s[..n] + [s[n]];
      assert Reverse(s) == [s[n]] + Reverse(s[..n]);
    }
  }

  /** Sorting the losses in descending order is subtracting the ascending final values one by one. */
  lemma MirroredLosses(total: real, finals: seq<real>)
    ensures Reverse(Sort(Losses(total, Sort(finals)))) == Losses(total, Sort(finals))
    ensures Descending(Losses(total, Sort(finals)))
  {
    var losses := Losses(total, Sort(finals));
    SortSorted(finals);
    SortSorted(losses);
    ReverseSame(losses);
    MirrorSorted(total, Sort(finals));
    hide Sort, Ascending;
    SortedUnique(Sort(losses), Reverse(losses));
    assert Reverse(Reverse(losses)) == losses;
  }

  lemma MirrorSorted(total: real, s: seq<real>)
    requires Ascending(s)
    ensures Descending(Losses(total, s)) && Ascending(Reverse(Losses(total, s)))
  {
  }

  // ----- what VaR and CVaR mean -----

  /** The portfolio value less the final value at the same index of the ascending list. */
  function Var(total: real, finals: seq<real>, confidence: real): real
    requires finals != [] && confidence <= 1.0
  {
    total - Sort(finals)[Rank(|finals|, confidence)]
  }

  /** The mean of the worst losses, down to and including the VaR. */
  function Cvar(total: real, finals: seq<real>, confidence: real): real
    requires finals != [] && confidence <= 1.0
  {
    Mean(Losses(total, Sort(finals))[..Rank(|finals|, confidence) + 1])
  }

  function CountAbove(s: seq<real>, x: real): nat {
    if s == [] then 0 else CountAbove(s[..|s| - 1], x) + if s[|s| - 1] > x then 1 else 0
  }

  function CountAtLeast(s: seq<real>, x: real): nat {
    if s == [] then 0 else CountAtLeast(s[..|s| - 1], x) + if s[|s| - 1] >= x then 1 else 0
  }

  lemma {:induction false} CountsConcat(a: seq<real>, b: seq<real>, x: real)
    ensures CountAbove(a + b, x) == CountAbove(a, x) + CountAbove(b, x)
    ensures CountAtLeast(a + b, x) == CountAtLeast(a, x) + CountAtLeast(b, x)
  {
    if b == [] {
      assert a + b == a;
    } else {
      CountsConcat(a, b[..|b| - 1], x);
      assert (a + b)[..|a + b| - 1] == a + b[..|b| - 1];
    }
  }

  lemma {:induction false} CountsPermute(a: seq<real>, b: seq<real>, x: real)
    requires multiset(a) == multiset(b)
    ensures CountAbove(a, x) == CountAbove(b, x) && CountAtLeast(a, x) == CountAtLeast(b, x)
    decreases |a|
  {
    if a == [] {
      NothingLeft(b);
    } else {
      var k := MatchLast(a, b);
      CountsPermute(a[..|a| - 1], b[..k] + b[k + 1..], x);
      CountsSplit(b, k, x);
    }
  }

  lemma CountsSplit(b: seq<real>, k: nat, x: real)
    requires k < |b|
    ensures CountAbove(b, x) == CountAbove(b[..k] + b[k + 1..], x) + if b[k] > x then 1 else 0
    ensures CountAtLeast(b, x) == CountAtLeast(b[..k] + b[k + 1..], x) + if b[k] >= x then 1 else 0
  {
    assert b == b[..k] + ([b[k]] + b[k + 1..]);
    CountsConcat(b[..k], [b[k]] + b[k + 1..], x);
    CountsConcat([b[k]], b[k + 1..], x);
    CountsConcat(b[..k], b[k + 1..], x);
    assert [b[k]][..0] == [];
  }

  lemma {:induction false} NoneAbove(s: seq<real>, x: real)
    requires forall i :: 0 <= i < |s| ==> s[i] <= x
    ensures CountAbove(s, x) == 0
  {
    if s != [] {
      NoneAbove(s[..|s| - 1], x);
    }
  }

  lemma {:induction false} AtMostAll(s: seq<real>, x: real)
    ensures CountAbove(s, x) <= |s|
  {
    if s != [] {
      AtMostAll(s[..|s| - 1], x);
    }
  }

  lemma {:induction false} AllAtLeast(s: seq<real>, x: real)
    requires forall i :: 0 <= i < |s| ==> s[i] >= x
    ensures CountAtLeast(s, x) == |s|
  {
    if s != [] {
      AllAtLeast(s[..|s| - 1], x);
    }
  }

  lemma {:induction false} LossesPermute(total: real, a: seq<real>, b: seq<real>)
    requires multiset(a) == multiset(b)
    ensures multiset(Losses(total, a)) == multiset(Losses(total, b))
    decreases |a|
  {
    hide Losses;
    if a == [] {
      NothingLeft(b);
    } else {
      var n := |a| - 1;
      var k := MatchLast(a, b);
      LossesPermute(total, a[..n], b[..k] + b[k + 1..]);
      SplitLosses(total, b, k);
      SplitLosses(total, a, n);
      assert a[..n] + a[n + 1..] == a[..n];
    }
  }

  lemma SplitLosses(total: real, s: seq<real>, k: nat)
    requires k < |s|
    ensures Losses(total, s) == Losses(total, s[..k]) + [total - s[k]] + Losses(total, s[k + 1..])
    ensures multiset(Losses(total, s)) == multiset(Losses(total, s[..k] + s[k + 1..])) + multiset{total - s[k]}
  {
    assert Losses(total, s[..k] + s[k + 1..]) == Losses(total, s[..k]) + Losses(total, s[k + 1..]);
  }

  /** The rank is the number of simulations that the confidence leaves over, rounded down; the last at most. */
  lemma RankBounds(n: nat, confidence: real)
    requires n > 0 && confidence <= 1.0
    ensures var rank, covered := Rank(n, confidence) as real, confidence * n as real;
            if covered > 0.0 then rank <= n as real - covered < rank + 1.0 else Rank(n, confidence) == n - 1
  {
    assert n as real * (1.0 - confidence) == n as real - confidence * n as real;
  }

  /**
    At most `rank` of the simulated losses exceed the VaR, and at least rank + 1 reach it: it is the
    loss of that rank among the simulations as they were drawn, sorted or not.
  */
  lemma VarIsOrderStatistic(total: real, finals: seq<real>, confidence: real)
    requires finals != [] && confidence <= 1.0
    ensures var losses, rank := Losses(total, finals), Rank(|finals|, confidence);
            var v := Var(total, finals, confidence);
            CountAbove(losses, v) <= rank && CountAtLeast(losses, v) >= rank + 1
    ensures var n, rank := |finals|, Rank(|finals|, confidence);
            if confidence * n as real > 0.0 then rank as real <= n as real - confidence * n as real < rank as real + 1.0
            else rank == n - 1
  {
    RankBounds(|finals|, confidence);
    hide Rank, Sort, CountAbove, CountAtLeast;
    var rank, v := Rank(|finals|, confidence), Var(total, finals, confidence);
    SortSorted(finals);
    MirroredLosses(total, finals);
    LossesPermute(total, finals, Sort(finals));
    CountsPermute(Losses(total, finals), Losses(total, Sort(finals)), v);
    RankOf(Losses(total, Sort(finals)), rank);
  }

  /** In a descending list, at most k entries exceed the k-th, and at least k + 1 reach it. */
  lemma RankOf(s: seq<real>, k: nat)
    requires Descending(s) && k < |s|
    ensures CountAbove(s, s[k]) <= k && CountAtLeast(s, s[k]) >= k + 1
  {
    hide CountAbove, CountAtLeast;
    assert s == s[..k] + s[k..] && s == s[..k + 1] + s[k + 1..];
    CountsConcat(s[..k], s[k..], s[k]);
    CountsConcat(s[..k + 1], s[k + 1..], s[k]);
    NoneAbove(s[k..], s[k]);
    AtMostAll(s[..k], s[k]);
    AllAtLeast(s[..k + 1], s[k]);
  }

  lemma {:induction false} SumAtLeast(s: seq<real>, x: real)
    requires forall i :: 0 <= i < |s| ==> s[i] >= x
    ensures Sum(s) >= |s| as real * x
  {
    if s != [] {
      SumAtLeast(s[..|s| - 1], x);
    }
  }

  lemma Smaller(x: real, y: real, k: real)
    requires x < y && k > 0.0
    ensures x * k < y * k
  {
  }

  lemma QuotientAtLeast(sum: real, n: real, x: real)
    requires n > 0.0 && sum >= n * x
    ensures sum / n >= x
  {
    var q := sum / n;
    assert q * n == sum;
    if q < x {
      Smaller(q, x, n);
      assert false;
    }
  }

  /** The expected shortfall is at least the VaR. */
  lemma CvarAtLeastVar(total: real, finals: seq<real>, confidence: real)
    requires finals != [] && confidence <= 1.0
    ensures Cvar(total, finals, confidence) >= Var(total, finals, confidence)
  {
    hide Rank, Sort, Mean;
    var losses := Losses(total, Sort(finals));
    MirroredLosses(total, finals);
    var tail := losses[..Rank(|finals|, confidence) + 1];
    var v := Var(total, finals, confidence);
    assert v == tail[|tail| - 1];
    MeanAtLeast(tail, v);
  }

  lemma MeanAtLeast(s: seq<real>, x: real)
    requires s != [] && forall i :: 0 <= i < |s| ==> s[i] >= x
    ensures Mean(s) >= x
  {
    SumAtLeast(s, x);
    QuotientAtLeast(Sum(s), |s| as real, x);
  }

  lemma AverageStep(sum: real, n: real, x: real)
    requires n > 0.0 && sum >= n * x
    ensures (sum + x) / (n + 1.0) <= sum / n
  {
    QuotientAtLeast(sum, n, x);
    var q := sum / n;
    assert q * n == sum;
    assert (n + 1.0) * q >= sum + x;
    QuotientAtLeast(-(sum + x), n + 1.0, -q);
  }

  /** Averaging more of a descending list never raises the average. */
  lemma {:induction false} PrefixAverages(s: seq<real>, k: nat, m: nat)
    requires Descending(s) && 0 < k <= m <= |s|
    ensures Mean(s[..m]) <= Mean(s[..k])
    decreases m - k
  {
    if k < m {
      PrefixAverages(s, k, m - 1);
      var front := s[..m - 1];
      assert s[..m][..m - 1] == front;
      SumAtLeast(front, s[m - 1]);
      AverageStep(Sum(front), (m - 1) as real, s[m - 1]);
    }
  }

  lemma IndexFalls(n: nat, c: real, d: real)
    requires c <= d <= 1.0
    ensures VarIndex(n, d) <= VarIndex(n, c)
  {
    ScaledNonNegative(n, d - c);
    assert n as real * (1.0 - c) == n as real * (1.0 - d) + n as real * (d - c);
  }

  /** Asking for more confidence never lowers either figure. */
  lemma MonotoneInConfidence(total: real, finals: seq<real>, c: real, d: real)
    requires finals != [] && c <= d <= 1.0
    ensures Var(total, finals, c) <= Var(total, finals, d)
    ensures Cvar(total, finals, c) <= Cvar(total, finals, d)
  {
    hide VarIndex, Sort, Mean;
    IndexFalls(|finals|, c, d);
    SortSorted(finals);
    MirroredLosses(total, finals);
    PrefixAverages(Losses(total, Sort(finals)), Rank(|finals|, d) + 1, Rank(|finals|, c) + 1);
  }

  /** Percentiles rise, stay between the worst and the best case, and the 50th is the median. */
  lemma PercentilesOrdered(finals: seq<real>, p: nat, q: nat)
    requires finals != [] && p <= q
    ensures var s := Sort(finals);
            && Percentile(s, p) <= Percentile(s, q)
            && s[0] <= Percentile(s, p) <= s[|s| - 1]
            && Percentile(s, 50) == s[|s| / 2]
  {
    hide Sort;
    SortSorted(finals);
    var s := Sort(finals);
    IndexRises(|s|, p, q);
    IndexRises(|s|, 0, p);
  }

  lemma IndexRises(n: nat, p: nat, q: nat)
    requires p <= q
    ensures 0 <= n * p / 100 <= n * q / 100
  {
    MulRises(n, p, q);
    QuotientRises(n * p, n * q);
  }

  lemma MulRises(n: nat, p: nat, q: nat)
    requires p <= q
    ensures n * p <= n * q
  {
    assert n * q == n * p + n * (q - p);
  }

  lemma QuotientRises(x: nat, y: nat)
    requires x <= y
    ensures x / 100 <= y / 100
  {
  }
}
