/**
  The money version of a sliding window: check_aml_compliance (backend/routes/kyc_routes.py) admits
  a transaction when the user's logged euros of the last 24 hours, with this one, stay within the
  daily limit of the tier in force. Times are microseconds.
*/
module AmlCompliance {
  import opened Wrappers

  const DAY := 86_400_000_000
  const STRUCTURING_WINDOW := 3_600_000_000
  const STRUCTURING_COUNT := 5
  const SINGLE_TX_ALERT := 10_000.0
  const DAILY_VELOCITY := 25_000.0

  /** dailyLimit is None for the unlimited tier. */
  datatype TierInfo = TierInfo(dailyLimit: Option<real>, canTrade: bool, canWithdraw: bool)

  /** A tier that is not in the table is treated as tier 0. */
  function TierLimits(tier: int): TierInfo {
    if tier == 1 then TierInfo(Some(1_000.0), true, false)
    else if tier == 2 then TierInfo(Some(50_000.0), true, true)
    else if tier == 3 then TierInfo(None, true, true)
    else TierInfo(Some(0.0), false, false)
  }

  datatype Entry = Entry(user: string, eur: real, txType: string, time: int)

  datatype AlertKind = LargeTransaction | HighVelocity | Structuring

  datatype Alert = Alert(user: string, kind: AlertKind, eur: real, time: int)

  /** Broken: the database raised while an accepted call was logged or its alerts were. */
  datatype Reply = NotVerified | TierTooLow | OverDailyLimit | Accepted(alertsGenerated: nat) | Broken

  /** The user's logged euros since a moment, that moment included. */
  function LoggedSince(log: seq<Entry>, user: string, since: int): real {
    if log == [] then 0.0 else
    var e := log[|log| - 1];
    LoggedSince(log[..|log| - 1], user, since) + if e.user == user && e.time >= since then e.eur else 0.0
  }

  function CountSince(log: seq<Entry>, user: string, since: int): nat {
    if log == [] then 0 else
    var e := log[|log| - 1];
    CountSince(log[..|log| - 1], user, since) + if e.user == user && e.time >= since then 1 else 0
  }

  function Decide(log: seq<Entry>, tier: int, e: Entry): Option<Reply> {
    var info := TierLimits(tier);
    if !info.canTrade && e.txType == "trade" then Some(NotVerified)
    else if !info.canWithdraw && e.txType == "withdraw" then Some(TierTooLow)
    else if info.dailyLimit.Some? && LoggedSince(log, e.user, e.time - DAY) + e.eur > info.dailyLimit.value
    then Some(OverDailyLimit)
    else None
  }

  /** The alerts of an accepted transaction, counted against the log that already holds it. */
  function AlertsFor(log: seq<Entry>, e: Entry): seq<Alert> {
    var total := LoggedSince(log, e.user, e.time - DAY);
    (if e.eur >= SINGLE_TX_ALERT then [Alert(e.user, LargeTransaction, e.eur, e.time)] else [])
    + (if total >= DAILY_VELOCITY then [Alert(e.user, HighVelocity, total, e.time)] else [])
    + (if CountSince(log, e.user, e.time - STRUCTURING_WINDOW) >= STRUCTURING_COUNT
       then [Alert(e.user, Structuring, e.eur, e.time)] else [])
  }

  lemma Append(log: seq<Entry>, e: Entry)
    ensures forall user, since :: LoggedSince(log + [e], user, since) ==
                                  LoggedSince(log, user, since)
                                  + if e.user == user && e.time >= since then e.eur else 0.0
  {
    assert (log + [e])[..|log|] == log;
  }

  class AmlMonitor {
    var tiers: map<string, int>
    var log: seq<Entry>
    var alerts: seq<Alert>

    constructor ()
      ensures tiers == map[] && log == [] && alerts == []
    {
      tiers, log, alerts := map[], [], [];
    }

    function TierOf(user: string): int
      reads this
    {
      if user in tiers then tiers[user] else 0
    }

    /** `writes`: how many of the two writes, the log's and the alerts', get through. */
    method CheckCompliance(user: string, eur: real, txType: string, now: int, writes: nat) returns (reply: Reply)
      modifies this`log, this`alerts
      ensures var e := Entry(user, eur, txType, now);
              match Decide(old(log), old(TierOf(user)), e)
              case Some(refusal) => reply == refusal && log == old(log) && alerts == old(alerts)
              case None =>
                var raised := AlertsFor(old(log) + [e], e);
                && log == old(log) + (if writes >= 1 then [e] else [])
                && alerts == old(alerts) + (if writes >= 2 then raised else [])
                && reply == if writes >= 2 || (writes == 1 && raised == []) then Accepted(|raised|) else Broken
      ensures user !in tiers && txType == "trade" ==> reply == NotVerified
    {
      hide LoggedSince, CountSince;
      var info := TierLimits(TierOf(user));
      if !info.canTrade && txType == "trade" {
        return NotVerified;
      }
      if !info.canWithdraw && txType == "withdraw" {
        return TierTooLow;
      }
      var dailyTotal := LoggedSince(log, user, now - DAY) + eur;
      if info.dailyLimit.Some? && dailyTotal > info.dailyLimit.value {
        return OverDailyLimit;
      }
      if writes < 1 {
        return Broken;
      }
      Append(log, Entry(user, eur, txType, now));
      log := log + [Entry(user, eur, txType, now)];
      var raised: seq<Alert> := [];
      if eur >= SINGLE_TX_ALERT {
        raised := raised + [Alert(user, LargeTransaction, eur, now)];
      }
      if dailyTotal >= DAILY_VELOCITY {
        raised := raised + [Alert(user, HighVelocity, dailyTotal, now)];
      }
      var recentCount := CountSince(log, user, now - STRUCTURING_WINDOW);
      if recentCount >= STRUCTURING_COUNT {
        raised := raised + [Alert(user, Structuring, eur, now)];
      }
      if raised != [] {
        if writes < 2 {
          return Broken;
        }
        alerts := alerts + raised;
      }
      return Accepted(|raised|);
    }
  }

  // ----- runs -----

  /** A call, with the tier that was in force for its user when it was made and the writes it got through. */
  datatype Call = Call(entry: Entry, tier: int, writes: nat)

  predicate Logs(h: seq<Call>, c: Call) {
    Decide(Log(h), c.tier, c.entry).None? && c.writes >= 1
  }

  /** The calls of a run that were accepted and logged, in order. */
  function LoggedCalls(calls: seq<Call>): (h: seq<Call>)
    ensures |h| <= |calls|
    ensures forall c :: c in h ==> c in calls
  {
    if calls == [] then [] else
    var h, c := LoggedCalls(calls[..|calls| - 1]), calls[|calls| - 1];
    if Logs(h, c) then h + [c] else h
  }

  function Log(h: seq<Call>): (log: seq<Entry>)
    ensures |log| == |h|
    ensures forall i :: 0 <= i < |h| ==> log[i] == h[i].entry
  {
    seq(|h|, i requires 0 <= i < |h| => h[i].entry)
  }

  function RunAlerts(calls: seq<Call>): seq<Alert> {
    if calls == [] then [] else
    var h, c := LoggedCalls(calls[..|calls| - 1]), calls[|calls| - 1];
    RunAlerts(calls[..|calls| - 1])
    + if Logs(h, c) && c.writes >= 2 then AlertsFor(Log(h) + [c.entry], c.entry) else []
  }

  /** A run's log and alerts move with one more call as CheckCompliance moves its own. */
  lemma RunGoesOn(calls: seq<Call>, c: Call)
    ensures var log, log' := Log(LoggedCalls(calls)), Log(LoggedCalls(calls + [c]));
            var alerts, alerts' := RunAlerts(calls), RunAlerts(calls + [c]);
            match Decide(log, c.tier, c.entry)
            case Some(_) => log' == log && alerts' == alerts
            case None =>
              && log' == log + (if c.writes >= 1 then [c.entry] else [])
              && alerts' == alerts + (if c.writes >= 2 then AlertsFor(log + [c.entry], c.entry) else [])
  {
    hide Decide, AlertsFor;
    assert (calls + [c])[..|calls|] == calls;
    AppendLog(LoggedCalls(calls), c);
  }

  predicate NonNegative(calls: seq<Call>) {
    forall c :: c in calls ==> c.entry.eur >= 0.0
  }

  predicate Within(limit: Option<real>, total: real) {
    limit.Some? ==> total <= limit.value
  }

  /** At the moment an accepted call was logged, its user's day was within the limit of its tier. */
  ghost predicate DayWithinLimit(h: seq<Call>, j: int)
    requires 0 <= j < |h|
  {
    var e := h[j].entry;
    Within(TierLimits(h[j].tier).dailyLimit, LoggedSince(Log(h[..j + 1]), e.user, e.time - DAY))
  }

  lemma AppendLog(h: seq<Call>, c: Call)
    ensures Log(h + [c]) == Log(h) + [c.entry]
    ensures Log(h + [c])[..|h|] == Log(h)
  {
  }

  ghost predicate DaysWithinLimit(h: seq<Call>) {
    forall j :: 0 <= j < |h| ==> DayWithinLimit(h, j)
  }

  lemma AcceptedWithinLimit(h: seq<Call>, c: Call)
    requires Decide(Log(h), c.tier, c.entry).None?
    ensures Within(TierLimits(c.tier).dailyLimit, LoggedSince(Log(h + [c]), c.entry.user, c.entry.time - DAY))
  {
    hide LoggedSince, TierLimits, Log;
    AppendLog(h, c);
    Append(Log(h), c.entry);
  }

  lemma ExtendDays(h: seq<Call>, c: Call)
    requires DaysWithinLimit(h) && Decide(Log(h), c.tier, c.entry).None?
    ensures DaysWithinLimit(h + [c])
  {
    hide LoggedSince, TierLimits, Log, Decide, Within;
    var h' := h + [c];
    AcceptedWithinLimit(h, c);
    forall j | 0 <= j < |h'| ensures DayWithinLimit(h', j) {
      if j < |h| {
        assert DayWithinLimit(h, j);
        assert h'[..j + 1] == h[..j + 1];
      } else {
        assert h'[..j + 1] == h';
      }
    }
  }

  /** Needs no assumption on times or amounts. */
  lemma {:induction false} EveryDayWithinLimit(calls: seq<Call>)
    ensures DaysWithinLimit(LoggedCalls(calls))
  {
    hide DaysWithinLimit, Decide;
    if calls == [] {
      NoDays();
    } else {
      var before, c := calls[..|calls| - 1], calls[|calls| - 1];
      EveryDayWithinLimit(before);
      if Logs(LoggedCalls(before), c) {
        ExtendDays(LoggedCalls(before), c);
      }
    }
  }

  lemma NoDays()
    ensures DaysWithinLimit([])
  {
  }

  // ----- the bound on every 24-hour window -----

  /** The user's logged euros between two moments, both included. */
  function LoggedBetween(log: seq<Entry>, user: string, from: int, to: int): real {
    if log == [] then 0.0 else
    var e := log[|log| - 1];
    LoggedBetween(log[..|log| - 1], user, from, to)
    + if e.user == user && from <= e.time <= to then e.eur else 0.0
  }

  predicate InWindow(e: Entry, user: string, from: int) {
    e.user == user && from <= e.time <= from + DAY
  }

  lemma {:induction false} BetweenAtMostSince(log: seq<Entry>, user: string, from: int, to: int, since: int)
    requires since <= from && forall e :: e in log ==> e.eur >= 0.0
    ensures 0.0 <= LoggedBetween(log, user, from, to) <= LoggedSince(log, user, since)
  {
    if log != [] {
      assert log[|log| - 1] in log;
      BetweenAtMostSince(log[..|log| - 1], user, from, to, since);
    }
  }

  lemma {:induction false} NothingAfter(log: seq<Entry>, n: nat, user: string, from: int, to: int)
    requires n <= |log|
    requires forall i :: n <= i < |log| ==> !(log[i].user == user && from <= log[i].time <= to)
    ensures LoggedBetween(log, user, from, to) == LoggedBetween(log[..n], user, from, to)
    decreases |log|
  {
    if n == |log| {
      assert log[..n] == log;
    } else {
      NothingAfter(log[..|log| - 1], n, user, from, to);
      assert log[..|log| - 1][..n] == log[..n];
    }
  }

  /**
    In every run without negative amounts, whatever its times, and for every 24-hour window: what is
    logged for a user in the window is at most the daily limit of the tier in force at the user's last
    logged call in it.
  */
  lemma EveryDayWindowBounded(calls: seq<Call>, user: string, from: int, last: int)
    requires NonNegative(calls)
    requires 0 <= last < |LoggedCalls(calls)| && InWindow(LoggedCalls(calls)[last].entry, user, from)
    requires forall i :: last < i < |LoggedCalls(calls)| ==> !InWindow(LoggedCalls(calls)[i].entry, user, from)
    ensures var h := LoggedCalls(calls);
            Within(TierLimits(h[last].tier).dailyLimit, LoggedBetween(Log(h), user, from, from + DAY))
  {
    hide LoggedSince, LoggedBetween, TierLimits, LoggedCalls;
    var h := LoggedCalls(calls);
    EveryDayWithinLimit(calls);
    assert DayWithinLimit(h, last);
    NothingAfter(Log(h), last + 1, user, from, from + DAY);
    assert Log(h)[..last + 1] == Log(h[..last + 1]);
    NoNegative(calls, last + 1);
    BetweenAtMostSince(Log(h[..last + 1]), user, from, from + DAY, h[last].entry.time - DAY);
  }

  lemma NoNegative(calls: seq<Call>, n: nat)
    requires NonNegative(calls) && n <= |LoggedCalls(calls)|
    ensures forall e :: e in Log(LoggedCalls(calls)[..n]) ==> e.eur >= 0.0
  {
    hide LoggedCalls;
    var h := LoggedCalls(calls);
    var log := Log(h[..n]);
    forall e | e in log ensures e.eur >= 0.0 {
      var i :| 0 <= i < |log| && log[i] == e;
      assert h[i] in calls;
    }
  }

  /** A user without a verified tier never gets a positive amount logged, whatever its transaction type. */
  lemma TierZeroLogsNothing(calls: seq<Call>, j: int)
    requires NonNegative(calls) && 0 <= j < |LoggedCalls(calls)|
    requires LoggedCalls(calls)[j].tier !in {1, 2, 3}
    ensures LoggedCalls(calls)[j].entry.eur == 0.0
  {
    var h := LoggedCalls(calls);
    assert h[j] in calls;
    EveryDayWithinLimit(calls);
    assert DayWithinLimit(h, j);
    AmountWithinDay(calls, j);
  }

  lemma AmountWithinDay(calls: seq<Call>, j: int)
    requires NonNegative(calls) && 0 <= j < |LoggedCalls(calls)|
    ensures var h := LoggedCalls(calls);
            h[j].entry.eur <= LoggedSince(Log(h[..j + 1]), h[j].entry.user, h[j].entry.time - DAY)
  {
    hide LoggedSince, LoggedCalls;
    var h := LoggedCalls(calls);
    var e, log := h[j].entry, Log(h[..j]);
    assert h[..j + 1] == h[..j] + [h[j]];
    AppendLog(h[..j], h[j]);
    Append(log, e);
    NoNegative(calls, j);
    BetweenAtMostSince(log, e.user, e.time - DAY, e.time, e.time - DAY);
  }

  /** A user whose tier never exceeds 1 raises no large-transaction and no high-velocity alert. */
  lemma {:induction false} LowTierNeverAlerts(calls: seq<Call>, user: string)
    requires NonNegative(calls)
    requires forall c :: c in calls && c.entry.user == user ==> c.tier <= 1
    ensures forall a :: a in RunAlerts(calls) && a.user == user ==> a.kind == Structuring
  {
    hide Decide, AlertsFor, LoggedSince, TierLimits, Log;
    if calls != [] {
      var before, c := calls[..|calls| - 1], calls[|calls| - 1];
      assert NonNegative(before) by {
        forall x | x in before ensures x in calls { }
      }
      LowTierNeverAlerts(before, user);
      var h := LoggedCalls(before);
      if Logs(h, c) {
        AlertsNameTheirUser(Log(h) + [c.entry], c.entry);
        if c.entry.user == user {
          assert c in calls;
          LowTierAlerts(calls, h, c);
        }
      }
    }
  }

  /**
    What is admitted and what is reported, in figures. An unverified user trades and withdraws nothing
    and logs nothing positive on an empty day, tier 1 does not withdraw and stays within 1,000 euros a
    day, tier 2 within 50,000, and tier 3 has no limit. An admitted call is reported as large exactly
    from 10,000 euros, as high velocity exactly when the last 24 hours reach 25,000 with it, and as
    structuring exactly when it is at least the fifth of the last hour.
  */
  lemma AdmittedAndReportedExactlyWhen(log: seq<Entry>, tier: int, e: Entry)
    ensures var day := LoggedSince(log, e.user, e.time - 24 * 60 * 60 * 1_000_000) + e.eur;
            var hour := CountSince(log, e.user, e.time - 60 * 60 * 1_000_000) + 1;
            var alerts := AlertsFor(log + [e], e);
            && (Decide(log, tier, e).None? <==>
                  if tier == 1 then e.txType != "withdraw" && day <= 1_000.0
                  else if tier == 2 then day <= 50_000.0
                  else tier == 3 || (e.txType != "trade" && e.txType != "withdraw" && day <= 0.0))
            && (Decide(log, tier, e) == Some(NotVerified) <==> tier !in {1, 2, 3} && e.txType == "trade")
            && (Decide(log, tier, e) == Some(TierTooLow) <==> tier !in {2, 3} && e.txType == "withdraw")
            && Decide(log, tier, e) in {None, Some(NotVerified), Some(TierTooLow), Some(OverDailyLimit)}
            && (Reports(alerts, LargeTransaction) <==> e.eur >= 10_000.0)
            && (Reports(alerts, HighVelocity) <==> day >= 25_000.0)
            && (Reports(alerts, Structuring) <==> hour >= 5)
  {
    hide LoggedSince, CountSince;
    Append(log, e);
    CountAppend(log, e);
    var alerts := AlertsFor(log + [e], e);
    var large := if e.eur >= SINGLE_TX_ALERT then 1 else 0;
    var total := LoggedSince(log + [e], e.user, e.time - DAY);
    if e.eur >= SINGLE_TX_ALERT {
      assert alerts[0].kind == LargeTransaction;
    }
    if total >= DAILY_VELOCITY {
      assert alerts[large].kind == HighVelocity;
    }
    if CountSince(log + [e], e.user, e.time - STRUCTURING_WINDOW) >= STRUCTURING_COUNT {
      assert alerts[|alerts| - 1].kind == Structuring;
    }
  }

  /** The positions of the user's entries that are no earlier than a moment. */
  function Positions(log: seq<Entry>, user: string, since: int): set<int> {
    set i | 0 <= i < |log| && log[i].user == user && log[i].time >= since
  }

  lemma OnePositionMore(log: seq<Entry>, user: string, since: int)
    requires log != []
    ensures var front, last := Positions(log[..|log| - 1], user, since), log[|log| - 1];
            && |log| - 1 !in front
            && Positions(log, user, since) ==
               front + if last.user == user && last.time >= since then {|log| - 1} else {}
  {
  }

  /** The count is that of the positions. */
  lemma {:induction false} CountIsCardinality(log: seq<Entry>, user: string, since: int)
    ensures CountSince(log, user, since) == |Positions(log, user, since)|
  {
    if log != [] {
      hide Positions;
      CountIsCardinality(log[..|log| - 1], user, since);
      OnePositionMore(log, user, since);
    }
  }

  predicate Reports(alerts: seq<Alert>, kind: AlertKind) {
    exists i :: 0 <= i < |alerts| && alerts[i].kind == kind
  }

  lemma CountAppend(log: seq<Entry>, e: Entry)
    ensures forall since :: CountSince(log + [e], e.user, since) ==
                            CountSince(log, e.user, since) + if e.time >= since then 1 else 0
  {
    assert (log + [e])[..|log|] == log;
  }

  lemma AlertsNameTheirUser(log: seq<Entry>, e: Entry)
    ensures forall a :: a in AlertsFor(log, e) ==> a.user == e.user
  {
    hide LoggedSince, CountSince;
  }

  lemma LowTierAlerts(calls: seq<Call>, h: seq<Call>, c: Call)
    requires NonNegative(calls) && LoggedCalls(calls) == h + [c] && c.tier <= 1
    ensures forall a :: a in AlertsFor(Log(h) + [c.entry], c.entry) ==> a.kind == Structuring
  {
    hide LoggedSince, CountSince, LoggedCalls;
    var h' := h + [c];
    assert h'[|h|] == c && h'[..|h| + 1] == h';
    AppendLog(h, c);
    EveryDayWithinLimit(calls);
    assert DayWithinLimit(h', |h|);
    AmountWithinDay(calls, |h|);
  }

  /**
    Every negative amount breaks the window bound: once a user of a limited trading tier has logged
    a < 0, a call of the limit less a is accepted a moment later, and the window that starts there
    holds that much, more than the limit.
  */
  lemma NegativeAmountsEscapeTheLimit(user: string, tier: int, a: real, time: int)
    requires (tier == 1 || tier == 2) && a < 0.0
    ensures var limit := TierLimits(tier).dailyLimit.value;
            var first := Call(Entry(user, a, "trade", time), tier, 2);
            var second := Call(Entry(user, limit - a, "trade", time + 1), tier, 2);
            && LoggedCalls([first, second]) == [first, second]
            && LoggedBetween(Log([first, second]), user, time + 1, time + 1 + DAY) == limit - a > limit
  {
    var limit := TierLimits(tier).dailyLimit.value;
    var first := Call(Entry(user, a, "trade", time), tier, 2);
    var second := Call(Entry(user, limit - a, "trade", time + 1), tier, 2);
    assert [first, second][..1] == [first] && [first][..0] == [];
    assert Log([]) == [] && Log([first]) == [first.entry];
    assert [first.entry][..0] == [];
    assert LoggedSince([], user, time - DAY) == 0.0;
    assert LoggedCalls([]) == [] && LoggedCalls([first]) == [] + [first];
    assert LoggedSince([first.entry], user, time + 1 - DAY) == a;
    var log := Log([first, second]);
    assert log[..1] == [first.entry] && log[1] == second.entry;
    assert LoggedBetween([], user, time + 1, time + 1 + DAY) == 0.0;
    assert LoggedBetween([first.entry], user, time + 1, time + 1 + DAY) == 0.0;
  }
}
