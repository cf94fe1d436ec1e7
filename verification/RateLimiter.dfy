/**
  The in-memory sliding-window limiter (backend/middleware/rate_limiter.py). The class keeps, per
  key, a list it prunes and sometimes deletes; the reference limiter keeps every admission for
  ever. Both give the same answers, and the reference limiter makes the bound on every window plain.
*/
module RateLimiter {
  import opened Wrappers

  type Windows = map<string, seq<real>>

  datatype Answer =
    | Decision(allowed: bool, remaining: int, retryAfter: int)
    | IndexError  // max_requests <= 0 and no entry to read the delay from

  function Entries(w: Windows, key: string): seq<real> {
    if key in w then w[key] else []
  }

  /** The entries later than the cutoff, in their order. */
  function Live(times: seq<real>, cutoff: real): (r: seq<real>)
    ensures |r| <= |times|
    ensures forall i :: 0 <= i < |r| ==> r[i] > cutoff
  {
    if times == [] then []
    else Live(times[..|times| - 1], cutoff) + if times[|times| - 1] > cutoff then [times[|times| - 1]] else []
  }

  /** The answer to a request at `now`, given the admissions it is to be counted against. */
  function AnswerTo(times: seq<real>, maxRequests: int, window: int, now: real): Answer {
    var cutoff := now - window as real;
    var live := Live(times, cutoff);
    if |live| < maxRequests then Decision(true, maxRequests - |live| - 1, 0)
    else if live == [] then IndexError
    else Decision(false, 0, (live[0] - cutoff).Floor + 1)
  }

  predicate Admits(a: Answer) {
    a.Decision? && a.allowed
  }

  function AfterAsk(times: seq<real>, maxRequests: int, window: int, now: real): seq<real> {
    var live := Live(times, now - window as real);
    if Admits(AnswerTo(times, maxRequests, window, now)) then live + [now] else live
  }

  predicate Stale(times: seq<real>, now: real) {
    times == [] || times[|times| - 1] < now - 300.0
  }

  function Swept(w: Windows, now: real): Windows {
    map k | k in w && !Stale(w[k], now) :: w[k]
  }

  class SlidingWindowCounter {
    var windows: Windows

    constructor ()
      ensures windows == map[]
    {
      windows := map[];
    }

    method IsAllowed(key: string, maxRequests: int, window: int, now: real) returns (answer: Answer)
      modifies this
      ensures answer == AnswerTo(old(Entries(windows, key)), maxRequests, window, now)
      ensures windows == old(windows)[key := AfterAsk(old(Entries(windows, key)), maxRequests, window, now)]
    {
      var cutoff := now - window as real;
      var times := Entries(windows, key);
      var kept: seq<real> := [];
      var i := 0;
      while i < |times|
        invariant i <= |times|
        invariant kept == Live(times[..i], cutoff)
      {
        assert times[..i + 1][..i] == times[..i];
        if times[i] > cutoff {
          kept := kept + [times[i]];
        }
        i := i + 1;
      }
      assert times[..i] == times;
      windows := windows[key := kept];
      if |windows[key]| >= maxRequests {
        if windows[key] == [] {
          return IndexError;
        }
        return Decision(false, 0, (windows[key][0] - cutoff).Floor + 1);
      }
      windows := windows[key := windows[key] + [now]];
      return Decision(true, maxRequests - |kept| - 1, 0);
    }

    method Cleanup(now: real)
      modifies this
      ensures windows == Swept(old(windows), now)
    {
      var stale := set k | k in windows && Stale(windows[k], now);
      ghost var all := stale;
      while stale != {}
        invariant stale <= all
        invariant windows == old(windows) - (all - stale)
        decreases stale
      {
        var k :| k in stale;
        windows := windows - {k};
        stale := stale - {k};
      }
    }
  }

  // ----- runs -----

  datatype Call = Ask(key: string, maxRequests: int, window: int, now: real) | Sweep(now: real)

  /** The lists held by the limiter after a run of calls. */
  function Pruned(calls: seq<Call>): Windows {
    if calls == [] then map[] else
    var w := Pruned(calls[..|calls| - 1]);
    match calls[|calls| - 1]
    case Ask(key, m, window, now) => w[key := AfterAsk(Entries(w, key), m, window, now)]
    case Sweep(now) => Swept(w, now)
  }

  datatype Admission = Admission(time: real, limit: int)

  function Times(h: seq<Admission>): (r: seq<real>)
    ensures |r| == |h|
    ensures forall i :: 0 <= i < |h| ==> r[i] == h[i].time
  {
    seq(|h|, i requires 0 <= i < |h| => h[i].time)
  }

  /** Every admission the reference limiter has granted on a key, with the limit the caller passed. */
  function Admitted(calls: seq<Call>, key: string): seq<Admission> {
    if calls == [] then [] else
    var h := Admitted(calls[..|calls| - 1], key);
    var c := calls[|calls| - 1];
    if c.Ask? && c.key == key && Admits(AnswerTo(Times(h), c.maxRequests, c.window, c.now))
    then h + [Admission(c.now, c.maxRequests)]
    else h
  }

  function PrunedAnswer(calls: seq<Call>, c: Call): Answer
    requires c.Ask?
  {
    AnswerTo(Entries(Pruned(calls), c.key), c.maxRequests, c.window, c.now)
  }

  function ReferenceAnswer(calls: seq<Call>, c: Call): Answer
    requires c.Ask?
  {
    AnswerTo(Times(Admitted(calls, c.key)), c.maxRequests, c.window, c.now)
  }

  /** The clock never goes back, and every request on a key passes that key's window. */
  predicate Orderly(calls: seq<Call>, windowOf: string -> int) {
    && (forall i, j :: 0 <= i < j < |calls| ==> calls[i].now <= calls[j].now)
    && (forall i :: 0 <= i < |calls| && calls[i].Ask? ==> calls[i].window == windowOf(calls[i].key))
  }

  function Clock(calls: seq<Call>): real
    requires calls != []
  {
    calls[|calls| - 1].now
  }

  // ----- filtering a sorted list keeps a suffix -----

  predicate Sorted(times: seq<real>) {
    forall i, j :: 0 <= i < j < |times| ==> times[i] <= times[j]
  }

  lemma {:induction false} LiveConcat(a: seq<real>, b: seq<real>, cutoff: real)
    ensures Live(a + b, cutoff) == Live(a, cutoff) + Live(b, cutoff)
  {
    if b == [] {
      assert a + b == a;
    } else {
      LiveConcat(a, b[..|b| - 1], cutoff);
      assert (a + b)[..|a + b| - 1] == a + b[..|b| - 1];
    }
  }

  lemma {:induction false} LiveNone(times: seq<real>, cutoff: real)
    requires forall i :: 0 <= i < |times| ==> times[i] <= cutoff
    ensures Live(times, cutoff) == []
  {
    if times != [] {
      LiveNone(times[..|times| - 1], cutoff);
    }
  }

  lemma {:induction false} LiveAll(times: seq<real>, cutoff: real)
    requires forall i :: 0 <= i < |times| ==> times[i] > cutoff
    ensures Live(times, cutoff) == times
  {
    if times != [] {
      LiveAll(times[..|times| - 1], cutoff);
    }
  }

  /** On a sorted list, dropping the first n entries does not show if they had expired. */
  lemma LiveDrop(times: seq<real>, n: nat, cutoff: real)
    requires n <= |times| && forall i :: 0 <= i < n ==> times[i] <= cutoff
    ensures Live(times[n..], cutoff) == Live(times, cutoff)
  {
    LiveConcat(times[..n], times[n..], cutoff);
    LiveNone(times[..n], cutoff);
    assert times == times[..n] + times[n..];
  }

  lemma {:induction false} LiveSuffix(times: seq<real>, cutoff: real)
    requires Sorted(times)
    ensures var n := |times| - |Live(times, cutoff)|;
            && Live(times, cutoff) == times[n..]
            && (forall i :: 0 <= i < n ==> times[i] <= cutoff)
  {
    if times != [] {
      var front, last := times[..|times| - 1], times[|times| - 1];
      assert times == front + [last];
      LiveSuffix(front, cutoff);
      assert Live(times, cutoff) == Live(front, cutoff) + if last > cutoff then [last] else [];
      if last <= cutoff {
        LiveNone(front, cutoff);
      } else {
        var n := |front| - |Live(front, cutoff)|;
        assert times[n..] == front[n..] + [last];
      }
    }
  }

  // ----- the pruned limiter answers like the reference limiter -----

  /** The list p is the end of the sorted history h, and what is missing of h had expired. */
  ghost predicate EndOf(p: seq<real>, h: seq<real>, expired: real) {
    && |p| <= |h| && p == h[|h| - |p|..] && Sorted(h)
    && forall i :: 0 <= i < |h| - |p| ==> h[i] <= expired
  }

  /** What the limiter holds for a key after a run, against the reference limiter's history. */
  ghost predicate Refines(calls: seq<Call>, key: string, window: int) {
    var h, p := Times(Admitted(calls, key)), Entries(Pruned(calls), key);
    if calls == [] then h == [] && p == []
    else EndOf(p, h, Clock(calls) - window as real) && forall i :: 0 <= i < |h| ==> h[i] <= Clock(calls)
  }

  lemma SameToAsk(p: seq<real>, h: seq<real>, maxRequests: int, window: int, now: real)
    requires EndOf(p, h, now - window as real)
    ensures AnswerTo(p, maxRequests, window, now) == AnswerTo(h, maxRequests, window, now)
    ensures Live(p, now - window as real) == Live(h, now - window as real)
  {
    hide Live, Sorted;
    LiveDrop(h, |h| - |p|, now - window as real);
  }

  lemma AskKeeps(p: seq<real>, h: seq<real>, maxRequests: int, window: int, now: real)
    requires EndOf(p, h, now - window as real) && forall i :: 0 <= i < |h| ==> h[i] <= now
    ensures EndOf(AfterAsk(p, maxRequests, window, now),
                  if Admits(AnswerTo(h, maxRequests, window, now)) then h + [now] else h, now - window as real)
  {
    hide AnswerTo, Live, EndOf;
    SameToAsk(p, h, maxRequests, window, now);
    var expired := now - window as real;
    EndOfSorted(p, h, expired);
    LiveEndOf(h, expired);
    EndOfAppend(Live(h, expired), h, now, expired);
  }

  lemma EndOfSorted(p: seq<real>, h: seq<real>, expired: real)
    requires EndOf(p, h, expired)
    ensures Sorted(h)
  {
  }

  lemma LiveEndOf(h: seq<real>, expired: real)
    requires Sorted(h)
    ensures EndOf(Live(h, expired), h, expired)
  {
    LiveSuffix(h, expired);
  }

  lemma EndOfAppend(p: seq<real>, h: seq<real>, x: real, expired: real)
    requires EndOf(p, h, expired) && forall i :: 0 <= i < |h| ==> h[i] <= x
    ensures EndOf(p + [x], h + [x], expired)
  {
    var n := |h| - |p|;
    assert (h + [x])[n..] == h[n..] + [x];
  }

  lemma SweepKeeps(p: seq<real>, h: seq<real>, window: int, now: real)
    requires EndOf(p, h, now - window as real) && window <= 300
    ensures EndOf(if Stale(p, now) then [] else p, h, now - window as real)
  {
    if p != [] {
      assert p[|p| - 1] == h[|h| - 1];
    }
  }

  /** An orderly run without its last call, and what the last call then satisfies. */
  lemma FrontOrderly(calls: seq<Call>, windowOf: string -> int)
    requires Orderly(calls, windowOf) && calls != []
    ensures var before, c := calls[..|calls| - 1], calls[|calls| - 1];
            && Orderly(before, windowOf)
            && (before != [] ==> Clock(before) <= c.now)
            && (c.Ask? ==> c.window == windowOf(c.key))
  {
  }

  lemma StoredEntries(w: Windows, key: string, times: seq<real>, other: string)
    ensures Entries(w[key := times], other) == if other == key then times else Entries(w, other)
  {
  }

  lemma AppendTime(h: seq<Admission>, a: Admission)
    ensures Times(h + [a]) == Times(h) + [a.time]
  {
  }

  lemma SweptEntries(w: Windows, key: string, now: real)
    ensures Entries(Swept(w, now), key) == if Stale(Entries(w, key), now) then [] else Entries(w, key)
  {
  }

  /** How one more call changes the limiter's list for a key. */
  lemma StepEntries(before: seq<Call>, c: Call, key: string)
    ensures var p := Entries(Pruned(before), key);
            Entries(Pruned(before + [c]), key) ==
            if c.Sweep? then (if Stale(p, c.now) then [] else p)
            else if c.key == key then AfterAsk(p, c.maxRequests, c.window, c.now)
            else p
  {
    hide AfterAsk, Swept, Stale, Entries;
    var w := Pruned(before);
    assert (before + [c])[..|before|] == before;
    if c.Sweep? {
      SweptEntries(w, key, c.now);
    } else {
      StoredEntries(w, c.key, AfterAsk(Entries(w, c.key), c.maxRequests, c.window, c.now), key);
    }
  }

  /** How one more call changes the reference limiter's history of a key. */
  lemma StepTimes(before: seq<Call>, c: Call, key: string)
    ensures var h := Times(Admitted(before, key));
            Times(Admitted(before + [c], key)) ==
            if c.Ask? && c.key == key && Admits(AnswerTo(h, c.maxRequests, c.window, c.now)) then h + [c.now] else h
  {
    hide AnswerTo, Admits, Times;
    assert (before + [c])[..|before|] == before;
    if c.Ask? {
      AppendTime(Admitted(before, key), Admission(c.now, c.maxRequests));
    }
  }

  lemma RefinesStep(before: seq<Call>, c: Call, key: string, window: int)
    requires window <= 300 && (c.Ask? && c.key == key ==> c.window == window)
    requires var h, p := Times(Admitted(before, key)), Entries(Pruned(before), key);
             EndOf(p, h, c.now - window as real) && forall i :: 0 <= i < |h| ==> h[i] <= c.now
    ensures Refines(before + [c], key, window)
  {
    hide AnswerTo, AfterAsk, Stale, EndOf, Entries, Times, Admitted, Pruned, Admits;
    var h, p := Times(Admitted(before, key)), Entries(Pruned(before), key);
    StepEntries(before, c, key);
    StepTimes(before, c, key);
    if c.Sweep? {
      SweepKeeps(p, h, window, c.now);
    } else if c.key == key {
      AskKeeps(p, h, c.maxRequests, c.window, c.now);
    }
  }

  lemma {:induction false} RunRefines(calls: seq<Call>, key: string, windowOf: string -> int)
    requires Orderly(calls, windowOf) && windowOf(key) <= 300
    ensures Refines(calls, key, windowOf(key))
  {
    hide Orderly, Refines, Admitted, Pruned;
    if calls == [] {
      NothingRefines(key, windowOf(key));
    } else {
      var before, c := calls[..|calls| - 1], calls[|calls| - 1];
      FrontOrderly(calls, windowOf);
      RunRefines(before, key, windowOf);
      ReadyForNext(before, c, key, windowOf(key));
      RefinesStep(before, c, key, windowOf(key));
      assert calls == before + [c];
    }
  }

  lemma ReadyForNext(before: seq<Call>, c: Call, key: string, window: int)
    requires Refines(before, key, window) && (before != [] ==> Clock(before) <= c.now)
    ensures var h, p := Times(Admitted(before, key)), Entries(Pruned(before), key);
            EndOf(p, h, c.now - window as real) && forall i :: 0 <= i < |h| ==> h[i] <= c.now
  {
    if before == [] {
      NothingYet(c.now - window as real);
    }
  }

  lemma NothingRefines(key: string, window: int)
    ensures Refines([], key, window)
  {
  }

  lemma NothingYet(expired: real)
    ensures EndOf([], [], expired)
  {
  }

  /**
    Pruning and cleanup at arbitrary points are invisible: after any orderly run, the next request
    on a key whose window is at most 300 seconds gets the answer of the reference limiter.
  */
  lemma SameAnswers(calls: seq<Call>, c: Call, windowOf: string -> int)
    requires c.Ask? && Orderly(calls + [c], windowOf) && windowOf(c.key) <= 300
    ensures PrunedAnswer(calls, c) == ReferenceAnswer(calls, c)
  {
    assert (calls + [c])[..|calls|] == calls;
    hide Orderly, Refines;
    FrontOrderly(calls + [c], windowOf);
    RunRefines(calls, c.key, windowOf);
    ReadyForNext(calls, c, c.key, c.window);
    SameToAsk(Entries(Pruned(calls), c.key), Times(Admitted(calls, c.key)), c.maxRequests, c.window, c.now);
  }

  /** For any window above 300 seconds cleanup does show: it forgets an admission that still counts. */
  lemma LongWindowsAreForgotten(key: string, window: int)
    requires window > 300
    ensures var t := (300.0 + window as real) / 2.0;
            var calls, c := [Ask(key, 1, window, 0.0), Sweep(t)], Ask(key, 1, window, t);
            && Orderly(calls + [c], (k: string) => window)
            && Admits(PrunedAnswer(calls, c)) && !Admits(ReferenceAnswer(calls, c))
  {
    var t := (300.0 + window as real) / 2.0;
    var first := Ask(key, 1, window, 0.0);
    OneAdmission(key, window);
    LiveAll([0.0], t - window as real);
    LiveAll([], t - window as real);
    hide Live;
    assert [first, Sweep(t)][..1] == [first];
    assert Stale([0.0], t);
    assert Pruned([first, Sweep(t)]) == map[];
    assert Admitted([first, Sweep(t)], key) == [Admission(0.0, 1)];
    assert Times([Admission(0.0, 1)]) == [0.0];
  }

  lemma OneAdmission(key: string, window: int)
    ensures Pruned([Ask(key, 1, window, 0.0)]) == map[key := [0.0]]
    ensures Admitted([Ask(key, 1, window, 0.0)], key) == [Admission(0.0, 1)]
  {
    var first := Ask(key, 1, window, 0.0);
    assert [first][..0] == [];
    assert Pruned([]) == map[] && Admitted([], key) == [];
    assert Times([]) == [] && Entries(map[], key) == [];
    assert AfterAsk([], 1, window, 0.0) == [0.0];
    assert Pruned([first]) == map[][key := AfterAsk([], 1, window, 0.0)];
  }

  // ----- the bound on every window -----

  lemma {:induction false} HistorySorted(calls: seq<Call>, key: string, windowOf: string -> int)
    requires Orderly(calls, windowOf)
    ensures Sorted(Times(Admitted(calls, key)))
    ensures calls == [] ==> Admitted(calls, key) == []
    ensures calls != [] ==> forall a :: a in Admitted(calls, key) ==> a.time <= Clock(calls)
  {
    if calls != [] {
      hide AnswerTo, Orderly;
      FrontOrderly(calls, windowOf);
      HistorySorted(calls[..|calls| - 1], key, windowOf);
    }
  }

  /** Admissions i to j lie closer together than the window: then j was granted a limit covering them all. */
  ghost predicate WithinLimit(h: seq<Admission>, window: int, i: int, j: int)
    requires 0 <= i <= j < |h|
  {
    h[j].time - h[i].time < window as real ==> j - i + 1 <= h[j].limit
  }

  ghost predicate SpansWithinLimit(h: seq<Admission>, window: int) {
    forall i, j :: 0 <= i <= j < |h| ==> WithinLimit(h, window, i, j)
  }

  lemma ExtendSpans(h: seq<Admission>, a: Admission, window: int)
    requires SpansWithinLimit(h, window) && Sorted(Times(h))
    requires Admits(AnswerTo(Times(h), a.limit, window, a.time))
    ensures SpansWithinLimit(h + [a], window)
  {
    var h' := h + [a];
    LiveSuffix(Times(h), a.time - window as real);
    forall i, j | 0 <= i <= j < |h'| ensures WithinLimit(h', window, i, j) {
      if j < |h| {
        assert WithinLimit(h, window, i, j);
      } else if i < |h| {
        assert Times(h)[i] == h[i].time;
      }
    }
  }

  lemma {:induction false} HistoryWithinLimit(calls: seq<Call>, key: string, windowOf: string -> int)
    requires Orderly(calls, windowOf)
    ensures SpansWithinLimit(Admitted(calls, key), windowOf(key))
  {
    if calls != [] {
      hide AnswerTo, Orderly, SpansWithinLimit;
      var before, c := calls[..|calls| - 1], calls[|calls| - 1];
      FrontOrderly(calls, windowOf);
      HistoryWithinLimit(before, key, windowOf);
      var h := Admitted(before, key);
      if Admitted(calls, key) != h {
        HistorySorted(before, key, windowOf);
        ExtendSpans(h, Admission(c.now, c.maxRequests), windowOf(key));
      }
    } else {
      assert SpansWithinLimit([], windowOf(key));
    }
  }

  /** The positions of the admissions that fall in the half-open window of the given length that ends at `end`. */
  function InWindow(h: seq<Admission>, window: int, end: real): set<int> {
    set i | 0 <= i < |h| && end - window as real < h[i].time <= end
  }

  /** The same for the half-open window that starts at `start`, its start included and its end not. */
  function InWindowFrom(h: seq<Admission>, window: int, start: real): set<int> {
    set i | 0 <= i < |h| && start <= h[i].time < start + window as real
  }

  function Range(lo: int, hi: int): (s: set<int>)
    requires lo <= hi
    ensures |s| == hi - lo
    ensures forall i :: i in s <==> lo <= i < hi
    decreases hi - lo
  {
    if lo == hi then {} else Range(lo, hi - 1) + {hi - 1}
  }

  lemma {:induction false} SubsetSize<T>(a: set<T>, b: set<T>)
    requires a <= b
    ensures |a| <= |b|
  {
    if a != {} {
      var x :| x in a;
      SubsetSize(a - {x}, b - {x});
    }
  }

  lemma SpreadBound(h: seq<Admission>, window: int, s: set<int>, last: int)
    requires last in s && forall i :: i in s ==> 0 <= i <= last && last < |h|
    requires forall i :: i in s ==> h[last].time - h[i].time < window as real
    requires SpansWithinLimit(h, window)
    ensures |s| <= h[last].limit
  {
    var low := last;
    while exists i :: i in s && i < low
      invariant low in s
      decreases low
    {
      var i :| i in s && i < low;
      low := i;
    }
    SubsetSize(s, Range(low, last + 1));
    assert WithinLimit(h, window, low, last);
  }

  /**
    In every run, every half-open window of a key's length holds at most as many admissions as the
    limit passed with the last of them, whichever end of the window is the open one.
  */
  lemma EveryWindowBounded(calls: seq<Call>, key: string, windowOf: string -> int, at: real, last: int)
    requires Orderly(calls, windowOf)
    ensures var h, w := Admitted(calls, key), windowOf(key);
            && ((last in InWindow(h, w, at) && forall i :: i in InWindow(h, w, at) ==> i <= last) ==>
                  |InWindow(h, w, at)| <= h[last].limit)
            && ((last in InWindowFrom(h, w, at) && forall i :: i in InWindowFrom(h, w, at) ==> i <= last) ==>
                  |InWindowFrom(h, w, at)| <= h[last].limit)
  {
    var h, w := Admitted(calls, key), windowOf(key);
    HistoryWithinLimit(calls, key, windowOf);
    hide SpansWithinLimit;
    if last in InWindow(h, w, at) && forall i :: i in InWindow(h, w, at) ==> i <= last {
      SpreadBound(h, w, InWindow(h, w, at), last);
    }
    if last in InWindowFrom(h, w, at) && forall i :: i in InWindowFrom(h, w, at) ==> i <= last {
      SpreadBound(h, w, InWindowFrom(h, w, at), last);
    }
  }

  // ----- the delay a rejected caller is told -----

  /**
    When a request with this limit would be admitted next, if nothing is admitted meanwhile: exactly
    once the entry that leaves fewer than `maxRequests` behind it has left the window.
  */
  lemma RetryAdmittedExactlyWhen(times: seq<real>, maxRequests: int, window: int, now: real, later: real)
    requires Sorted(times) && maxRequests > 0 && now <= later
    requires !Admits(AnswerTo(times, maxRequests, window, now))
    ensures var live := Live(times, now - window as real);
            && |live| >= maxRequests
            && (Admits(AnswerTo(times, maxRequests, window, later)) <==>
                  live[|live| - maxRequests] <= later - window as real)
  {
    var live := Live(times, now - window as real);
    var cutoff := later - window as real;
    LiveSuffix(times, now - window as real);
    LiveSuffix(times, cutoff);
    var n, m := |times| - |live|, |times| - |Live(times, cutoff)|;
    var k := |live| - maxRequests;
    assert live[k] == times[n + k];
    if m <= n + k {
      assert Live(times, cutoff)[n + k - m] == times[n + k];
    }
  }

  /**
    With one limit on a key the list is exactly full at a rejection, so waiting retry_after is
    enough, it is at most one second more than necessary, and it lies between 1 and window + 1.
  */
  lemma RetryAfterIsTight(times: seq<real>, maxRequests: int, window: int, now: real, later: real)
    requires Sorted(times) && (forall i :: 0 <= i < |times| ==> times[i] <= now)
    requires maxRequests > 0 && |Live(times, now - window as real)| <= maxRequests
    requires !Admits(AnswerTo(times, maxRequests, window, now)) && now <= later
    ensures var a := AnswerTo(times, maxRequests, window, now);
            var needed := Live(times, now - window as real)[0] - (now - window as real);
            && a.Decision? && 1 <= a.retryAfter <= window + 1
            && (Admits(AnswerTo(times, maxRequests, window, later)) <==> later >= now + needed)
            && needed < a.retryAfter as real <= needed + 1.0
  {
    RetryAdmittedExactlyWhen(times, maxRequests, window, now, later);
    LiveSuffix(times, now - window as real);
  }

  /** The list after k requests with this limit at the same moment. */
  function AfterAsks(times: seq<real>, k: nat, maxRequests: int, window: int, now: real): seq<real> {
    if k == 0 then times else AfterAsk(AfterAsks(times, k - 1, maxRequests, window, now), maxRequests, window, now)
  }

  lemma LiveAfterAsk(times: seq<real>, maxRequests: int, window: int, now: real)
    requires window > 0
    ensures var live := |Live(times, now - window as real)|;
            |Live(AfterAsk(times, maxRequests, window, now), now - window as real)| ==
            if live < maxRequests then live + 1 else live
  {
    hide Live;
    var cutoff := now - window as real;
    var live := Live(times, cutoff);
    LiveAll(live, cutoff);
    LiveAll([now], cutoff);
    LiveConcat(live, [now], cutoff);
  }

  lemma {:induction false} LiveAfterAsks(times: seq<real>, k: nat, maxRequests: int, window: int, now: real)
    requires window > 0
    ensures var live := |Live(times, now - window as real)|;
            |Live(AfterAsks(times, k, maxRequests, window, now), now - window as real)| ==
            if live + k <= maxRequests then live + k else if live <= maxRequests then maxRequests else live
  {
    hide AfterAsk, Live;
    if k > 0 {
      LiveAfterAsks(times, k - 1, maxRequests, window, now);
      LiveAfterAsk(AfterAsks(times, k - 1, maxRequests, window, now), maxRequests, window, now);
    }
  }

  /** The remaining count an admitted caller is told is exactly how many more requests it could make at once. */
  lemma RemainingIsExact(times: seq<real>, maxRequests: int, window: int, now: real, k: nat)
    requires window > 0 && Admits(AnswerTo(times, maxRequests, window, now))
    ensures Admits(AnswerTo(AfterAsks(times, k + 1, maxRequests, window, now), maxRequests, window, now)) <==>
            k < AnswerTo(times, maxRequests, window, now).remaining
  {
    hide AfterAsks, Live;
    LiveAfterAsks(times, k + 1, maxRequests, window, now);
  }

  /** One limit per key makes the premise of RetryAfterIsTight hold in every run. */
  lemma NeverOverfull(calls: seq<Call>, c: Call, windowOf: string -> int)
    requires c.Ask? && c.maxRequests > 0 && Orderly(calls + [c], windowOf)
    requires forall d :: d in calls && d.Ask? && d.key == c.key ==> d.maxRequests == c.maxRequests
    ensures var times := Times(Admitted(calls, c.key));
            && Sorted(times) && (forall i :: 0 <= i < |times| ==> times[i] <= c.now)
            && |Live(times, c.now - c.window as real)| <= c.maxRequests
  {
    hide *;
    assert (calls + [c])[..|calls|] == calls && (calls + [c])[|calls|] == c;
    FrontOrderly(calls + [c], windowOf);
    HistorySorted(calls, c.key, windowOf);
    HistoryWithinLimit(calls, c.key, windowOf);
    LimitsPassed(calls, c.key, c.maxRequests);
    assert forall a :: a in Admitted(calls, c.key) ==> a.time <= c.now;
    LiveCount(Admitted(calls, c.key), c.maxRequests, c.window, c.now);
  }

  /**
    In every run with one limit per key, on the limiter as it prunes and sweeps: a rejected caller who
    comes back after retry_after seconds is admitted if nothing was admitted on the key meanwhile, and
    one who comes back more than a second earlier is not.
  */
  lemma RetryInRuns(calls: seq<Call>, c: Call, more: seq<Call>, d: Call, windowOf: string -> int)
    requires c.Ask? && d.Ask? && d.key == c.key && d.maxRequests == c.maxRequests > 0
    requires Orderly(calls + [c] + more + [d], windowOf) && windowOf(c.key) <= 300
    requires forall x :: x in calls && x.Ask? && x.key == c.key ==> x.maxRequests == c.maxRequests
    requires !Admits(PrunedAnswer(calls, c)) && Admitted(calls + [c] + more, c.key) == Admitted(calls, c.key)
    ensures var a, later := PrunedAnswer(calls, c), PrunedAnswer(calls + [c] + more, d);
            && a.Decision? && 1 <= a.retryAfter <= c.window + 1
            && (d.now >= c.now + a.retryAfter as real ==> Admits(later))
            && (d.now < c.now + a.retryAfter as real - 1.0 ==> !Admits(later))
  {
    hide Admitted, Pruned, AnswerTo, Admits, Live, Sorted;
    var all := calls + [c] + more + [d];
    var times := Times(Admitted(calls, c.key));
    SplitOrderly(calls, c, more, d, windowOf);
    SameAnswers(calls, c, windowOf);
    SameAnswers(calls + [c] + more, d, windowOf);
    NeverOverfull(calls, c, windowOf);
    RetryAfterIsTight(times, c.maxRequests, c.window, c.now, d.now);
  }

  lemma SplitOrderly(calls: seq<Call>, c: Call, more: seq<Call>, d: Call, windowOf: string -> int)
    requires c.Ask? && d.Ask? && d.key == c.key && Orderly(calls + [c] + more + [d], windowOf)
    ensures Orderly(calls + [c], windowOf) && c.now <= d.now && c.window == d.window == windowOf(c.key)
  {
    var all := calls + [c] + more + [d];
    PrefixOrderly(all, |calls|, windowOf);
    assert all[..|calls|] == calls && all[|calls|] == c && all[|all| - 1] == d;
  }

  lemma LiveCount(h: seq<Admission>, limit: int, window: int, now: real)
    requires SpansWithinLimit(h, window) && Sorted(Times(h)) && limit > 0
    requires forall a :: a in h ==> a.limit == limit && a.time <= now
    ensures |Live(Times(h), now - window as real)| <= limit
  {
    var times, cutoff := Times(h), now - window as real;
    LiveSuffix(times, cutoff);
    var n := |times| - |Live(times, cutoff)|;
    if n < |h| {
      assert Live(times, cutoff)[0] == h[n].time;
      assert h[|h| - 1] in h;
      assert WithinLimit(h, window, n, |h| - 1);
    }
  }

  lemma {:induction false} LimitsPassed(calls: seq<Call>, key: string, limit: int)
    requires forall d :: d in calls && d.Ask? && d.key == key ==> d.maxRequests == limit
    ensures forall a :: a in Admitted(calls, key) ==> a.limit == limit
  {
    if calls != [] {
      hide AnswerTo;
      assert calls[|calls| - 1] in calls;
      LimitsPassed(calls[..|calls| - 1], key, limit);
    }
  }

  /**
    When two limits share a key the delay can fall short: ten requests under a limit of 10, then one
    under a limit of 5, which is told 51 seconds and is rejected again after 51 seconds.
  */
  lemma SharedKeyDelayFallsShort()
    ensures var times := seq(10, i => i as real);
            && Sorted(times)
            && AnswerTo(times, 5, 60, 10.0) == Decision(false, 0, 51)
            && !Admits(AnswerTo(times, 5, 60, 61.0))
  {
    var times := seq(10, i => i as real);
    LiveAll(times, 10.0 - 60.0);
    LiveSuffix(times, 61.0 - 60.0);
    var f := Live(times, 1.0);
    assert times[4] == 4.0;
  }

  // ----- the limits table and the middleware -----

  datatype Limit = Limit(maxRequests: int, window: int)

  const DEFAULT_LIMIT := Limit(120, 60)

  const RATE_LIMITS: seq<(string, Limit)> := [
    ("/api/auth/login", Limit(10, 60)),
    ("/api/auth/register", Limit(5, 60)),
    ("/api/neno-exchange/buy", Limit(10, 60)),
    ("/api/neno-exchange/sell", Limit(10, 60)),
    ("/api/neno-exchange/swap", Limit(10, 60)),
    ("/api/neno-exchange/offramp", Limit(10, 60)),
    ("/api/margin/", Limit(60, 60)),
    ("/api/advanced-orders/", Limit(60, 60)),
    ("/api/kyc/verify-document-ai", Limit(5, 60)),
    ("/api/banking/", Limit(20, 60)),
    ("/api/ws/", Limit(100, 60))
  ]

  function FirstMatch(table: seq<(string, Limit)>, path: string): Limit {
    if table == [] then DEFAULT_LIMIT
    else if table[0].0 <= path then table[0].1
    else FirstMatch(table[1..], path)
  }

  function GetRateLimit(path: string): Limit {
    FirstMatch(RATE_LIMITS, path)
  }

  function Split(s: string, c: char): (parts: seq<string>)
    ensures |parts| > 0
  {
    if s == "" then [""] else
    var rest := Split(s[1..], c);
    if s[0] == c then [""] + rest else [[s[0]] + rest[0]] + rest[1..]
  }

  datatype Request = Request(path: string, client: string, verb: string, websocket: bool)

  /** None: the request is not counted. */
  function Dispatch(r: Request, now: real): Option<Call> {
    if r.path in ["/health", "/api/health", "/"] || !("/api" <= r.path) || r.websocket || r.verb == "OPTIONS"
    then None
    else
      var limit := GetRateLimit(r.path);
      Some(Ask(r.client + ":" + Segment(r.path), limit.maxRequests, limit.window, now))
  }

  /** The part of a path that requests are counted by. */
  function Segment(path: string): string {
    var parts := Split(path, '/');
    if |parts| > 2 then parts[2] else "root"
  }

  predicate NoColon(s: string) {
    forall i :: 0 <= i < |s| ==> s[i] != ':'
  }

  /** A client's name as the middleware makes it, a tag and an address or token, when that has no colon of its own. */
  ghost predicate Tagged(client: string) {
    exists i :: 0 <= i < |client| && client[i] == ':' && NoColon(client[..i]) && NoColon(client[i + 1..])
  }

  /** Two clients with such names never share a key, whatever they ask for. */
  lemma ClientsHaveOwnKeys(r: Request, q: Request, now: real, later: real)
    requires Tagged(r.client) && Tagged(q.client)
    requires Dispatch(r, now).Some? && Dispatch(q, later).Some?
    requires Dispatch(r, now).value.key == Dispatch(q, later).value.key
    ensures r.client == q.client
  {
    hide Segment, GetRateLimit;
    SecondColon(r.client, q.client, Segment(r.path), Segment(q.path));
  }

  lemma SecondColon(a: string, b: string, x: string, y: string)
    requires Tagged(a) && Tagged(b) && a + ":" + x == b + ":" + y
    ensures a == b
  {
    var key := a + ":" + x;
    assert key[..|a|] == a && key[|a|] == ':' && key == b + ":" + y;
    assert key[..|b|] == b && key[|b|] == ':';
    var i :| 0 <= i < |a| && a[i] == ':' && NoColon(a[..i]) && NoColon(a[i + 1..]);
    var j :| 0 <= j < |b| && b[j] == ':' && NoColon(b[..j]) && NoColon(b[j + 1..]);
    assert forall k :: 0 <= k < i ==> key[k] == a[..i][k];
    assert forall k :: 0 <= k < j ==> key[k] == b[..j][k];
    assert key[i] == ':' && key[j] == ':' && i == j;
    assert forall k :: i < k < |a| ==> key[k] == a[i + 1..][k - i - 1];
    assert forall k :: i < k < |b| ==> key[k] == b[j + 1..][k - j - 1];
    assert |a| == |b|;
  }

  /** Whatever the names, if no segment has a colon a key is shared exactly by one client's requests to one segment. */
  lemma KeySharedExactlyWhen(r: Request, q: Request, now: real, later: real)
    requires Dispatch(r, now).Some? && Dispatch(q, later).Some?
    requires NoColon(Segment(r.path)) && NoColon(Segment(q.path))
    ensures Dispatch(r, now).value.key == Dispatch(q, later).value.key <==>
            r.client == q.client && Segment(r.path) == Segment(q.path)
  {
    hide Segment, GetRateLimit;
    if Dispatch(r, now).value.key == Dispatch(q, later).value.key {
      LastColon(r.client, q.client, Segment(r.path), Segment(q.path));
    }
  }

  lemma LastColon(a: string, b: string, x: string, y: string)
    requires NoColon(x) && NoColon(y) && a + ":" + x == b + ":" + y
    ensures a == b && x == y
  {
    var key := a + ":" + x;
    assert key[|a|] == ':' && key == b + ":" + y && key[|b|] == ':';
    assert forall k :: |a| < k < |key| ==> key[k] == x[k - |a| - 1];
    assert forall k :: |b| < k < |key| ==> key[k] == y[k - |b| - 1];
    assert |a| == |b| && key[..|a|] == a && key[..|b|] == b;
    assert key[|a| + 1..] == x && key[|b| + 1..] == y;
  }

  /** With a colon in both a name and a segment two clients can share a key. */
  lemma ColonsShareAKey(now: real)
    ensures var r := Dispatch(Request("/api/b:c", "ip:a", "GET", false), now);
            var q := Dispatch(Request("/api/c", "ip:a:b", "GET", false), now);
            r.Some? && q.Some? && r.value.key == q.value.key
  {
    hide GetRateLimit, Split;
    ApiSegment("b:c");
    ApiSegment("c");
    assert "/api/" + "b:c" == "/api/b:c" && "/api/" + "c" == "/api/c";
    assert "ip:a" + ":" + "b:c" == "ip:a:b" + ":" + "c";
  }

  lemma ApiSegment(leaf: string)
    requires forall i :: 0 <= i < |leaf| ==> leaf[i] != '/'
    ensures Segment("/api/" + leaf) == leaf
  {
    hide Split;
    SplitSegment("", "api/" + leaf);
    SplitSegment("api", leaf);
    SplitWhole(leaf);
    assert "" + "/" + ("api/" + leaf) == "/api/" + leaf;
    assert "api" + "/" + leaf == "api/" + leaf;
  }

  lemma {:induction false} SplitWhole(a: string)
    requires forall i :: 0 <= i < |a| ==> a[i] != '/'
    ensures Split(a, '/') == [a]
  {
    if a != "" {
      SplitWhole(a[1..]);
      assert [a[0]] + a[1..] == a;
    }
  }

  /** A path has the limit of the first entry of the table that it begins with, and the default if there is none. */
  lemma {:induction false} FirstMatchIsFirst(table: seq<(string, Limit)>, path: string, i: nat)
    requires i <= |table| && (forall j :: 0 <= j < i ==> !(table[j].0 <= path))
    requires i < |table| ==> table[i].0 <= path
    ensures FirstMatch(table, path) == if i < |table| then table[i].1 else Limit(120, 60)
  {
    if i > 0 {
      FirstMatchIsFirst(table[1..], path, i - 1);
    }
  }

  lemma {:induction false} TableEntries(table: seq<(string, Limit)>, path: string)
    requires forall i :: 0 <= i < |table| ==> table[i].1.window == 60 && table[i].1.maxRequests > 0
    ensures FirstMatch(table, path).window == 60 && FirstMatch(table, path).maxRequests > 0
  {
    if table != [] && !(table[0].0 <= path) {
      TableEntries(table[1..], path);
    }
  }

  datatype Input = Http(request: Request, now: real) | Periodic(now: real)

  /** The limiter calls that a stream of requests and periodic cleanups produces. */
  function CallsOf(inputs: seq<Input>): seq<Call> {
    if inputs == [] then [] else
    var before := CallsOf(inputs[..|inputs| - 1]);
    match inputs[|inputs| - 1]
    case Periodic(now) => before + [Sweep(now)]
    case Http(r, now) =>
      match Dispatch(r, now)
      case Some(c) => before + [c]
      case None => before
  }

  function SixtySeconds(): string -> int {
    (key: string) => 60
  }

  lemma PrefixOrderly(calls: seq<Call>, n: nat, windowOf: string -> int)
    requires Orderly(calls, windowOf) && n < |calls|
    ensures Orderly(calls[..n] + [calls[n]], windowOf) && calls[n] in calls
  {
  }

  lemma DispatchedCall(r: Request, now: real)
    ensures match Dispatch(r, now)
            case Some(c) => c.Ask? && c.window == 60 && c.maxRequests > 0 && c.now == now
            case None => true
  {
    hide Split, GetRateLimit;
    LimitsPerMinute(r.path);
  }

  lemma LimitsPerMinute(path: string)
    ensures GetRateLimit(path).window == 60 && GetRateLimit(path).maxRequests > 0
  {
    hide FirstMatch;
    TableEntries(RATE_LIMITS, path);
  }

  lemma AppendOrderly(calls: seq<Call>, c: Call)
    requires Orderly(calls, SixtySeconds()) && (calls != [] ==> Clock(calls) <= c.now)
    requires c.Ask? ==> c.window == 60
    ensures Orderly(calls + [c], SixtySeconds())
  {
  }

  lemma {:induction false} MiddlewareIsOrderly(inputs: seq<Input>)
    requires forall i, j :: 0 <= i < j < |inputs| ==> inputs[i].now <= inputs[j].now
    ensures Orderly(CallsOf(inputs), SixtySeconds())
    ensures CallsOf(inputs) != [] ==> inputs != [] && Clock(CallsOf(inputs)) <= inputs[|inputs| - 1].now
    ensures forall c :: c in CallsOf(inputs) && c.Ask? ==> c.maxRequests > 0
  {
    if inputs != [] {
      hide Dispatch, Orderly;
      var front, last := inputs[..|inputs| - 1], inputs[|inputs| - 1];
      MiddlewareIsOrderly(front);
      if last.Periodic? {
        AppendOrderly(CallsOf(front), Sweep(last.now));
      } else {
        DispatchedCall(last.request, last.now);
        if Dispatch(last.request, last.now).Some? {
          AppendOrderly(CallsOf(front), Dispatch(last.request, last.now).value);
        }
      }
    } else {
      assert Orderly([], SixtySeconds());
    }
  }

  /**
    Through the middleware, with a clock that does not go back: every answer is a decision and the
    reference limiter's, and no 60-second window of any key exceeds the limit of its last admission.
  */
  lemma MiddlewareBounded(inputs: seq<Input>, key: string, end: real, last: int)
    requires forall i, j :: 0 <= i < j < |inputs| ==> inputs[i].now <= inputs[j].now
    ensures var calls := CallsOf(inputs);
            var h := Admitted(calls, key);
            && (forall k :: 0 <= k < |calls| && calls[k].Ask? ==>
                  && PrunedAnswer(calls[..k], calls[k]).Decision?
                  && PrunedAnswer(calls[..k], calls[k]) == ReferenceAnswer(calls[..k], calls[k]))
            && ((last in InWindow(h, 60, end) && forall i :: i in InWindow(h, 60, end) ==> i <= last) ==>
                  |InWindow(h, 60, end)| <= h[last].limit)
  {
    var calls := CallsOf(inputs);
    MiddlewareIsOrderly(inputs);
    hide CallsOf, InWindow, Admitted, Pruned;
    EveryWindowBounded(calls, key, SixtySeconds(), end, last);
    forall k | 0 <= k < |calls| && calls[k].Ask?
      ensures PrunedAnswer(calls[..k], calls[k]).Decision?
      ensures PrunedAnswer(calls[..k], calls[k]) == ReferenceAnswer(calls[..k], calls[k])
    {
      PrefixOrderly(calls, k, SixtySeconds());
      AnswerInRun(calls[..k], calls[k], SixtySeconds());
    }
  }

  lemma AnswerInRun(calls: seq<Call>, c: Call, windowOf: string -> int)
    requires c.Ask? && Orderly(calls + [c], windowOf) && windowOf(c.key) <= 300 && c.maxRequests > 0
    ensures PrunedAnswer(calls, c) == ReferenceAnswer(calls, c) && PrunedAnswer(calls, c).Decision?
  {
    SameAnswers(calls, c, windowOf);
  }

  /** A slash-free segment splits off whole. */
  lemma {:induction false} SplitSegment(a: string, rest: string)
    requires forall i :: 0 <= i < |a| ==> a[i] != '/'
    ensures Split(a + "/" + rest, '/') == [a] + Split(rest, '/')
  {
    var s := a + "/" + rest;
    if a == "" {
      assert s[1..] == rest;
    } else {
      SplitSegment(a[1..], rest);
      assert s[1..] == a[1..] + "/" + rest && s[0] == a[0];
      assert ([a[1..]] + Split(rest, '/'))[1..] == Split(rest, '/');
      assert [a[0]] + a[1..] == a;
    }
  }

  lemma AuthLimits()
    ensures GetRateLimit("/api/auth/login") == Limit(10, 60)
    ensures GetRateLimit("/api/auth/register") == Limit(5, 60)
  {
    var login, register := "/api/auth/login", "/api/auth/register";
    assert RATE_LIMITS[0].0 == login && RATE_LIMITS[1].0 == register;
    assert login[10] != register[10];
    assert RATE_LIMITS[1..][0] == RATE_LIMITS[1];
  }

  /** Login and registration are counted under one key although their limits are 10 and 5. */
  lemma LoginAndRegisterShareAKey(client: string, now: real)
    ensures var login := Dispatch(Request("/api/auth/login", client, "POST", false), now);
            var register := Dispatch(Request("/api/auth/register", client, "POST", false), now);
            && login.Some? && register.Some? && login.value.key == register.value.key
            && login.value.maxRequests == 10 && register.value.maxRequests == 5
  {
    AuthLimits();
    hide GetRateLimit, Split;
    KeySegment("login");
    KeySegment("register");
    assert "/api/auth/" + "login" == "/api/auth/login";
    assert "/api/auth/" + "register" == "/api/auth/register";
  }

  lemma KeySegment(leaf: string)
    ensures |Split("/api/auth/" + leaf, '/')| > 2 && Split("/api/auth/" + leaf, '/')[2] == "auth"
  {
    SplitSegment("", "api/auth/" + leaf);
    SplitSegment("api", "auth/" + leaf);
    SplitSegment("auth", leaf);
    assert "" + "/" + ("api/auth/" + leaf) == "/api/auth/" + leaf;
    assert "api" + "/" + ("auth/" + leaf) == "api/auth/" + leaf;
    assert "auth" + "/" + leaf == "auth/" + leaf;
  }
}
