/**
  Recurring purchases (backend/routes/dca_routes.py): the routes that create, pause, resume and
  cancel a plan, and the batch that executes the plans that are due. Plans of one user share the
  user's wallets. Times are seconds, amounts are exact.
*/
module DcaPlans {
  import opened Wrappers
  import opened Rounding
  import opened UserWallets

  datatype PlanStatus = Active | Paused | Completed | Cancelled

  datatype Plan = Plan(
    user: string, asset: string, amountEur: real, interval: string, maxExecutions: Option<int>,
    totalExecutions: nat, totalInvested: real, totalAcquired: real,
    status: PlanStatus, nextExecution: int, lastExecution: Option<int>)

  const VALID_ASSETS := {"BTC", "ETH", "SOL", "BNB", "XRP", "ADA", "DOGE", "NENO", "AVAX", "DOT", "LINK"}
  const VALID_INTERVALS := {"hourly", "daily", "weekly", "biweekly", "monthly"}

  function RefPrice(asset: string): real {
    if asset == "BTC" then 60787.0 else if asset == "ETH" then 1769.0 else if asset == "SOL" then 74.72
    else if asset == "BNB" then 555.36 else if asset == "XRP" then 1.21 else if asset == "ADA" then 0.38
    else if asset == "DOGE" then 0.082 else if asset == "NENO" then 10000.0 else if asset == "AVAX" then 24.50
    else if asset == "DOT" then 5.12 else if asset == "LINK" then 13.80 else 0.0
  }

  function IntervalSeconds(interval: string): (s: int)
    ensures s >= 3600
  {
    if interval == "hourly" then 3600 else if interval == "weekly" then 604800
    else if interval == "biweekly" then 1209600 else if interval == "monthly" then 2592000 else 86400
  }

  // ----- the state and what the batch does with one plan -----

  datatype Execution = Execution(plan: nat, at: int, eur: real, quantity: real)

  /** Plans in the order they were created; a plan is named by its position. */
  datatype State = State(plans: seq<Plan>, wallets: Wallets, executions: seq<Execution>)

  predicate Exhausted(p: Plan) {
    p.maxExecutions.Some? && p.maxExecutions.value != 0 && p.totalExecutions >= p.maxExecutions.value
  }

  function Quantity(p: Plan): real
    requires RefPrice(p.asset) > 0.0
  {
    Round8(p.amountEur / RefPrice(p.asset))
  }

  predicate Executes(s: State, i: nat, now: int) {
    && i < |s.plans| && now >= s.plans[i].nextExecution && !Exhausted(s.plans[i])
    && Balance(s.wallets, s.plans[i].user, "EUR") >= s.plans[i].amountEur && RefPrice(s.plans[i].asset) > 0.0
  }

  function Bought(p: Plan, now: int): Plan
    requires RefPrice(p.asset) > 0.0
  {
    p.(totalExecutions := p.totalExecutions + 1, totalInvested := p.totalInvested + p.amountEur,
       totalAcquired := p.totalAcquired + Quantity(p),
       nextExecution := now + IntervalSeconds(p.interval), lastExecution := Some(now))
  }

  function Paid(w: Wallets, p: Plan): Wallets
    requires RefPrice(p.asset) > 0.0
  {
    Credit(Debit(w, p.user, "EUR", p.amountEur), p.user, p.asset, Quantity(p))
  }

  /** One turn of the batch loop, on the plan at position i. */
  function Turn(s: State, i: nat, now: int): State
    requires i < |s.plans|
  {
    var p := s.plans[i];
    if now < p.nextExecution then s
    else if Exhausted(p) then s.(plans := s.plans[i := p.(status := Completed)])
    else if Balance(s.wallets, p.user, "EUR") < p.amountEur then s.(plans := s.plans[i := p.(status := Paused)])
    else if RefPrice(p.asset) <= 0.0 then s
    else State(s.plans[i := Bought(p, now)], Paid(s.wallets, p),
               s.executions + [Execution(i, now, p.amountEur, Quantity(p))])
  }

  /** How many writes one turn makes. */
  function Writes(s: State, i: nat, now: int): nat
    requires i < |s.plans|
  {
    var p := s.plans[i];
    if now < p.nextExecution then 0
    else if Exhausted(p) || Balance(s.wallets, p.user, "EUR") < p.amountEur then 1
    else if RefPrice(p.asset) <= 0.0 then 0
    else 4
  }

  /** The turn when the database takes only so many of its writes: debit, credit, execution, plan. */
  function Cut(s: State, i: nat, now: int, writes: nat): (s': State)
    requires i < |s.plans|
    ensures |s'.plans| == |s.plans|
  {
    var p := s.plans[i];
    if writes >= Writes(s, i, now) then Turn(s, i, now)
    else if writes == 0 then s
    else s.(wallets := if writes == 1 then Debit(s.wallets, p.user, "EUR", p.amountEur) else Paid(s.wallets, p),
            executions := if writes < 3 then s.executions
                          else s.executions + [Execution(i, now, p.amountEur, Quantity(p))])
  }

  /** A batch visits some of the active plans, each once, in any order. */
  predicate IsBatch(s: State, batch: seq<nat>) {
    && (forall k :: 0 <= k < |batch| ==> batch[k] < |s.plans| && s.plans[batch[k]].status == Active)
    && (forall j, k :: 0 <= j < k < |batch| ==> batch[j] != batch[k])
  }

  function Batch(s: State, batch: seq<nat>, now: int): (s': State)
    requires forall k :: 0 <= k < |batch| ==> batch[k] < |s.plans|
    ensures |s'.plans| == |s.plans|
  {
    if batch == [] then s else Turn(Batch(s, batch[..|batch| - 1], now), batch[|batch| - 1], now)
  }

  /** The batch when the last plan it comes to has only so many of its writes taken. */
  function CutBatch(s: State, batch: seq<nat>, now: int, writes: nat): State
    requires forall k :: 0 <= k < |batch| ==> batch[k] < |s.plans|
  {
    if batch == [] then s else Cut(Batch(s, batch[..|batch| - 1], now), batch[|batch| - 1], now, writes)
  }

  /** A write for the last plan is refused, and the exception ends the batch. */
  predicate Breaks(s: State, batch: seq<nat>, now: int, writes: nat)
    requires forall k :: 0 <= k < |batch| ==> batch[k] < |s.plans|
  {
    batch != [] && writes < Writes(Batch(s, batch[..|batch| - 1], now), batch[|batch| - 1], now)
  }

  // ----- the routes -----

  datatype Event =
    | Create(user: string, asset: string, amountEur: real, interval: string, maxExecutions: Option<int>, now: int)
    | Pause(user: string, plan: nat)
    | Resume(user: string, plan: nat, now: int)
    | Cancel(user: string, plan: nat)
    | RunBatch(batch: seq<nat>, now: int, writes: nat)

  function NewPlan(user: string, asset: string, amountEur: real, interval: string, max: Option<int>, now: int): Plan {
    Plan(user, asset, amountEur, interval, max, 0, 0.0, 0.0, Active, now, None)
  }

  predicate Accepts(s: State, e: Event) {
    match e
    case Create(user, asset, amountEur, interval, max, _) =>
      && amountEur > 0.0 && (max.Some? ==> max.value >= 1)
      && asset in VALID_ASSETS && interval in VALID_INTERVALS && Balance(s.wallets, user, "EUR") >= amountEur
    case Pause(user, i) => i < |s.plans| && s.plans[i].user == user && s.plans[i].status == Active
    case Resume(user, i, _) => i < |s.plans| && s.plans[i].user == user && s.plans[i].status == Paused
    case Cancel(user, i) => i < |s.plans| && s.plans[i].user == user && s.plans[i].status != Cancelled
    case RunBatch(batch, _, _) => IsBatch(s, batch)
  }

  function Step(s: State, e: Event): State {
    if !Accepts(s, e) then s else
    match e
    case Create(user, asset, amountEur, interval, max, now) =>
      s.(plans := s.plans + [NewPlan(user, asset, amountEur, interval, max, now)])
    case Pause(_, i) => s.(plans := s.plans[i := s.plans[i].(status := Paused)])
    case Resume(_, i, now) => s.(plans := s.plans[i := s.plans[i].(status := Active, nextExecution := now)])
    case Cancel(_, i) => s.(plans := s.plans[i := s.plans[i].(status := Cancelled)])
    case RunBatch(batch, now, writes) => CutBatch(s, batch, now, writes)
  }

  class DcaBot {
    var plans: seq<Plan>
    var wallets: Wallets
    var executions: seq<Execution>

    constructor (balances: Wallets)
      ensures View() == State([], balances, [])
    {
      plans, wallets, executions := [], balances, [];
    }

    function View(): State
      reads this
    {
      State(plans, wallets, executions)
    }

    method CreatePlan(user: string, asset: string, amountEur: real, interval: string, max: Option<int>, now: int)
      returns (ok: bool)
      requires amountEur > 0.0 && (max.Some? ==> max.value >= 1)
      modifies this
      ensures View() == Step(old(View()), Create(user, asset, amountEur, interval, max, now))
      ensures ok == Accepts(old(View()), Create(user, asset, amountEur, interval, max, now))
    {
      if asset !in VALID_ASSETS || interval !in VALID_INTERVALS {
        return false;
      }
      if Balance(wallets, user, "EUR") < amountEur {
        return false;
      }
      plans := plans + [NewPlan(user, asset, amountEur, interval, max, now)];
      return true;
    }

    method PausePlan(user: string, plan: nat) returns (ok: bool)
      modifies this
      ensures View() == Step(old(View()), Pause(user, plan)) && ok == Accepts(old(View()), Pause(user, plan))
    {
      ok := plan < |plans| && plans[plan].user == user && plans[plan].status == Active;
      if ok {
        plans := plans[plan := plans[plan].(status := Paused)];
      }
    }

    method ResumePlan(user: string, plan: nat, now: int) returns (ok: bool)
      modifies this
      ensures View() == Step(old(View()), Resume(user, plan, now))
      ensures ok == Accepts(old(View()), Resume(user, plan, now))
    {
      ok := plan < |plans| && plans[plan].user == user && plans[plan].status == Paused;
      if ok {
        plans := plans[plan := plans[plan].(status := Active, nextExecution := now)];
      }
    }

    method CancelPlan(user: string, plan: nat) returns (ok: bool)
      modifies this
      ensures View() == Step(old(View()), Cancel(user, plan)) && ok == Accepts(old(View()), Cancel(user, plan))
    {
      ok := plan < |plans| && plans[plan].user == user && plans[plan].status != Cancelled;
      if ok {
        plans := plans[plan := plans[plan].(status := Cancelled)];
      }
    }

    /** None: the database refused a write for the last plan of the batch, after taking the first `writes`. */
    method ExecuteDcaPlans(batch: seq<nat>, now: int, writes: nat) returns (executed: Option<nat>)
      requires IsBatch(View(), batch)
      modifies this
      ensures View() == Step(old(View()), RunBatch(batch, now, writes))
      ensures executed.None? <==> Breaks(old(View()), batch, now, writes)
      ensures executed.Some? ==> executed.value == |executions| - |old(executions)|
    {
      hide Batch;
      ghost var was := View();
      EmptyBatch(was, now);
      var count := 0;
      var k := 0;
      while k < |batch|
        invariant k <= |batch| && |plans| == |was.plans|
        invariant View() == if k < |batch| then Batch(was, batch[..k], now) else CutBatch(was, batch, now, writes)
        invariant k == |batch| ==> !Breaks(was, batch, now, writes)
        invariant count == |executions| - |was.executions|
      {
        var last := k == |batch| - 1;
        BatchGoesOn(was, batch, k, now);
        var bought := ExecutePlan(batch[k], now, if last then writes else 4);
        if bought.None? {
          return None;
        }
        count := count + bought.value;
        k := k + 1;
      }
      return Some(count);
    }

    /** The body of the loop; None if the database refuses a write. */
    method ExecutePlan(i: nat, now: int, writes: nat) returns (bought: Option<nat>)
      requires i < |plans|
      modifies this
      ensures View() == Cut(old(View()), i, now, writes)
      ensures bought.None? <==> writes < Writes(old(View()), i, now)
      ensures bought.Some? ==> bought.value == |executions| - |old(executions)|
    {
      hide RefPrice, Quantity, Exhausted, IntervalSeconds, Balance, Debit, Credit;
      var p := plans[i];
      if now < p.nextExecution {
        return Some(0);
      }
      if Exhausted(p) {
        if writes < 1 {
          return None;
        }
        plans := plans[i := p.(status := Completed)];
        return Some(0);
      }
      if Balance(wallets, p.user, "EUR") < p.amountEur {
        if writes < 1 {
          return None;
        }
        plans := plans[i := p.(status := Paused)];
        return Some(0);
      }
      var price := RefPrice(p.asset);
      if price <= 0.0 {
        return Some(0);
      }
      if writes < 1 {
        return None;
      }
      wallets := Debit(wallets, p.user, "EUR", p.amountEur);
      if writes < 2 {
        return None;
      }
      wallets := Credit(wallets, p.user, p.asset, Quantity(p));
      if writes < 3 {
        return None;
      }
      executions := executions + [Execution(i, now, p.amountEur, Quantity(p))];
      if writes < 4 {
        return None;
      }
      plans := plans[i := Bought(p, now)];
      return Some(1);
    }
  }

  lemma EmptyBatch(s: State, now: int)
    ensures Batch(s, [], now) == s && CutBatch(s, [], now, 0) == s
  {
  }

  lemma BatchGoesOn(s: State, batch: seq<nat>, k: nat, now: int)
    requires IsBatch(s, batch) && k < |batch|
    ensures Batch(s, batch[..k + 1], now) == Turn(Batch(s, batch[..k], now), batch[k], now)
    ensures Writes(Batch(s, batch[..k], now), batch[k], now) <= 4
    ensures k == |batch| - 1 ==> batch[..k] == batch[..|batch| - 1]
  {
    assert batch[..k + 1][..k] == batch[..k];
  }

  // ----- what one turn does -----

  const HOURS: map<string, int> :=
    map["hourly" := 1, "daily" := 24, "weekly" := 7 * 24, "biweekly" := 14 * 24, "monthly" := 30 * 24]

  lemma IntervalHours()
    ensures HOURS.Keys == VALID_INTERVALS
    ensures forall i :: IntervalSeconds(i) == 3600 * if i in HOURS then HOURS[i] else 24
  {
  }

  const PRICES: map<string, real> :=
    map["BTC" := 60787.0, "ETH" := 1769.0, "SOL" := 74.72, "BNB" := 555.36, "XRP" := 1.21, "ADA" := 0.38,
        "DOGE" := 0.082, "NENO" := 10000.0, "AVAX" := 24.50, "DOT" := 5.12, "LINK" := 13.80]

  /** Every asset a plan can be created for has a price, so no plan is ever skipped for want of one. */
  lemma PricedExactlyWhenListed(asset: string)
    ensures RefPrice(asset) == if asset in PRICES then PRICES[asset] else 0.0
    ensures RefPrice(asset) > 0.0 <==> asset in VALID_ASSETS
  {
  }

  /**
    A plan that is due is completed exactly when it has used up its executions, paused exactly when it
    has not and the euros do not cover it, and executed exactly otherwise: the amount leaves the euro
    wallet, what it buys at the price, to half a unit of the eighth decimal, reaches the asset wallet,
    and the next execution is due an interval later. Nothing happens to a plan that is not due.
  */
  lemma TurnOutcome(s: State, i: nat, now: int)
    requires i < |s.plans| && GoodPlan(s.plans[i]) && s.plans[i].status == Active
    ensures var p, s' := s.plans[i], Turn(s, i, now);
            var due := now >= p.nextExecution;
            var used := p.maxExecutions.Some? && p.totalExecutions >= p.maxExecutions.value;
            var covered := Balance(s.wallets, p.user, "EUR") >= p.amountEur;
            && (s'.plans[i].status == Completed <==> due && used)
            && (s'.plans[i].status == Paused <==> due && !used && !covered)
            && (|s'.executions| == |s.executions| + 1 <==> due && !used && covered)
            && (Executes(s, i, now) <==> due && !used && covered)
            && Writes(s, i, now) == (if !due then 0 else if used || !covered then 1 else 4)
            && (if due && !used && covered then
                  var price := RefPrice(p.asset);
                  var got := Balance(s'.wallets, p.user, p.asset) - Balance(s.wallets, p.user, p.asset);
                  && Balance(s'.wallets, p.user, "EUR") == Balance(s.wallets, p.user, "EUR") - p.amountEur
                  && p.amountEur - HALF_UNIT_8 * price <= got * price <= p.amountEur + HALF_UNIT_8 * price
                  && s'.executions == s.executions + [Execution(i, now, p.amountEur, got)]
                  && var hours := if p.interval in HOURS then HOURS[p.interval] else 24;
                     s'.plans[i] == p.(totalExecutions := p.totalExecutions + 1,
                                       totalInvested := p.totalInvested + p.amountEur,
                                       totalAcquired := p.totalAcquired + got, lastExecution := Some(now),
                                       nextExecution := now + 3600 * hours)
                else s'.wallets == s.wallets && s'.executions == s.executions)
  {
    hide RefPrice, VALID_ASSETS, Round8, IntervalSeconds;
    var p := s.plans[i];
    NoEuroPlans(p);
    PricedExactlyWhenListed(p.asset);
    IntervalHours();
    WorthTheAmount(p);
  }

  lemma WorthTheAmount(p: Plan)
    requires RefPrice(p.asset) > 0.0
    ensures var price := RefPrice(p.asset);
            p.amountEur - HALF_UNIT_8 * price <= Quantity(p) * price <= p.amountEur + HALF_UNIT_8 * price
  {
    hide Round8, RefPrice;
    var price := RefPrice(p.asset);
    var exact := p.amountEur / price;
    assert exact * price == p.amountEur;
    RoundingError(exact);
    ProductRises(exact - HALF_UNIT_8, Quantity(p), price);
    ProductRises(Quantity(p), exact + HALF_UNIT_8, price);
  }

  lemma ProductRises(x: real, y: real, k: real)
    requires x <= y && k > 0.0
    ensures x * k <= y * k
  {
  }

  // ----- every run -----

  function Run(s: State, es: seq<Event>): State {
    if es == [] then s else Step(Run(s, es[..|es| - 1]), es[|es| - 1])
  }

  /** What the routes keep of a plan, and that no wallet is overdrawn. */
  ghost predicate Good(s: State) {
    && (forall i :: 0 <= i < |s.plans| ==> GoodPlan(s.plans[i]))
    && (forall u :: Balance(s.wallets, u, "EUR") >= 0.0)
  }

  predicate GoodPlan(p: Plan) {
    && p.amountEur > 0.0 && p.asset in VALID_ASSETS
    && (p.maxExecutions.Some? ==> p.maxExecutions.value >= 1 && p.totalExecutions <= p.maxExecutions.value)
  }

  lemma TurnKeepsGood(s: State, i: nat, now: int)
    requires Good(s) && i < |s.plans|
    ensures Good(Turn(s, i, now))
  {
    hide RefPrice, Quantity, VALID_ASSETS;
    var p, s' := s.plans[i], Turn(s, i, now);
    assert GoodPlan(p);
    NoEuroPlans(p);
    forall u ensures Balance(s'.wallets, u, "EUR") >= 0.0 {
      assert Balance(s.wallets, u, "EUR") >= 0.0 && Balance(s.wallets, p.user, "EUR") >= 0.0;
    }
    forall j | 0 <= j < |s'.plans| ensures GoodPlan(s'.plans[j]) {
      assert GoodPlan(s.plans[j]);
    }
  }

  lemma NoEuroPlans(p: Plan)
    requires GoodPlan(p)
    ensures p.asset != "EUR"
  {
  }

  lemma {:induction false} BatchKeepsGood(s: State, batch: seq<nat>, now: int)
    requires Good(s) && forall k :: 0 <= k < |batch| ==> batch[k] < |s.plans|
    ensures Good(Batch(s, batch, now))
  {
    hide Good, Turn;
    if batch != [] {
      BatchKeepsGood(s, batch[..|batch| - 1], now);
      TurnKeepsGood(Batch(s, batch[..|batch| - 1], now), batch[|batch| - 1], now);
    }
  }

  lemma CutKeepsGood(s: State, i: nat, now: int, writes: nat)
    requires Good(s) && i < |s.plans|
    ensures Good(Cut(s, i, now, writes))
  {
    hide RefPrice, Quantity, VALID_ASSETS, Turn;
    TurnKeepsGood(s, i, now);
    var p, s' := s.plans[i], Cut(s, i, now, writes);
    if writes < Writes(s, i, now) {
      assert GoodPlan(p);
      NoEuroPlans(p);
      forall u ensures Balance(s'.wallets, u, "EUR") >= 0.0 {
        assert Balance(s.wallets, u, "EUR") >= 0.0 && Balance(s.wallets, p.user, "EUR") >= 0.0;
      }
    }
  }

  /**
    In every run of the routes and batches, even when one user owns many plans and when the database
    breaks off a batch inside a purchase: no euro wallet goes below zero and no plan's counter exceeds
    its maximum.
  */
  lemma {:induction false} RunsStayGood(s: State, es: seq<Event>)
    requires Good(s)
    ensures Good(Run(s, es))
  {
    if es != [] {
      var before, e := Run(s, es[..|es| - 1]), es[|es| - 1];
      RunsStayGood(s, es[..|es| - 1]);
      if Accepts(before, e) && e.RunBatch? && e.batch != [] {
        var front, last := e.batch[..|e.batch| - 1], e.batch[|e.batch| - 1];
        BatchKeepsGood(before, front, e.now);
        CutKeepsGood(Batch(before, front, e.now), last, e.now, e.writes);
      }
    }
  }

  // ----- what becomes of a plan's status -----

  /** Who can do what to a plan, by its columns, and what it is then. */
  lemma RouteOutcome(s: State, e: Event)
    requires !e.RunBatch?
    ensures match e
            case Create(user, asset, amountEur, interval, max, now) =>
              && (Accepts(s, e) <==>
                    && amountEur > 0.0 && (max.None? || max.value > 0) && asset in PRICES && interval in HOURS
                    && Balance(s.wallets, user, "EUR") >= amountEur)
              && (Accepts(s, e) ==>
                    Step(s, e).plans ==
                    s.plans + [Plan(user, asset, amountEur, interval, max, 0, 0.0, 0.0, Active, now, None)])
            case Pause(user, i) =>
              && (Accepts(s, e) <==> OwnedWith(s, user, i, {Active}))
              && (Accepts(s, e) ==> Step(s, e).plans[i] == s.plans[i].(status := Paused))
            case Resume(user, i, now) =>
              && (Accepts(s, e) <==> OwnedWith(s, user, i, {Paused}))
              && (Accepts(s, e) ==> Step(s, e).plans[i] == s.plans[i].(status := Active, nextExecution := now))
            case Cancel(user, i) =>
              && (Accepts(s, e) <==> OwnedWith(s, user, i, {Active, Paused, Completed}))
              && (Accepts(s, e) ==> Step(s, e).plans[i] == s.plans[i].(status := Cancelled))
            case RunBatch(_, _, _) => true
    ensures Step(s, e).wallets == s.wallets && Step(s, e).executions == s.executions
  {
    if e.Create? {
      IntervalHours();
      PricedExactlyWhenListed(e.asset);
    }
  }

  predicate OwnedWith(s: State, user: string, i: nat, statuses: set<PlanStatus>) {
    i < |s.plans| && s.plans[i].user == user && s.plans[i].status in statuses
  }

  const MOVES: set<(PlanStatus, PlanStatus)> := {
    (Active, Paused), (Paused, Active), (Active, Completed),
    (Active, Cancelled), (Paused, Cancelled), (Completed, Cancelled)}

  predicate Moves(p: Plan, q: Plan) {
    q.status == p.status || (p.status, q.status) in MOVES
  }

  lemma CutMoves(s: State, n: nat, now: int, writes: nat, i: nat)
    requires n < |s.plans| && i < |s.plans| && s.plans[n].status == Active
    ensures (if i == n then Cut(s, n, now, writes).plans[i].status in {Active, Paused, Completed}
             else Cut(s, n, now, writes).plans[i] == s.plans[i])
    ensures Cut(s, n, now, 4) == Turn(s, n, now)
  {
    hide RefPrice, Quantity, Exhausted, Balance, Credit, Debit;
  }

  lemma {:induction false} BatchMoves(s: State, batch: seq<nat>, now: int, i: nat)
    requires IsBatch(s, batch) && i < |s.plans|
    ensures var p, q := s.plans[i], Batch(s, batch, now).plans[i];
            if i in batch then p.status == Active && q.status in {Active, Paused, Completed} else q == p
  {
    hide Turn, Cut;
    if batch != [] {
      var front, last := batch[..|batch| - 1], batch[|batch| - 1];
      assert batch == front + [last] && last !in front;
      BatchMoves(s, front, now, i);
      BatchMoves(s, front, now, last);
      CutMoves(Batch(s, front, now), last, now, 4, i);
    }
  }

  /** Every step moves a plan's status along one of these edges, if at all; a cancelled plan stays cancelled. */
  lemma StepMoves(s: State, e: Event, i: nat)
    requires i < |s.plans|
    ensures i < |Step(s, e).plans| && Moves(s.plans[i], Step(s, e).plans[i])
  {
    if e.RunBatch? && Accepts(s, e) && e.batch != [] {
      hide RefPrice, Quantity, Exhausted, Balance, Credit, Debit;
      var front, last := e.batch[..|e.batch| - 1], e.batch[|e.batch| - 1];
      assert e.batch == front + [last] && last !in front;
      BatchMoves(s, front, e.now, i);
      BatchMoves(s, front, e.now, last);
      CutMoves(Batch(s, front, e.now), last, e.now, e.writes, i);
    }
  }

  lemma {:induction false} CancelledStays(s: State, es: seq<Event>, i: nat)
    requires i < |s.plans| && s.plans[i].status == Cancelled
    ensures i < |Run(s, es).plans| && Run(s, es).plans[i].status == Cancelled
  {
    hide Step, Accepts;
    if es != [] {
      CancelledStays(s, es[..|es| - 1], i);
      StepMoves(Run(s, es[..|es| - 1]), es[|es| - 1], i);
    }
  }

  /** A batch raises exactly when it leaves something undone that it would have done. */
  lemma RaisesExactlyWhenUndone(s: State, batch: seq<nat>, now: int, writes: nat)
    requires Good(s) && IsBatch(s, batch)
    ensures Breaks(s, batch, now, writes) <==> CutBatch(s, batch, now, writes) != Batch(s, batch, now)
  {
    if batch != [] {
      hide RefPrice, Quantity, Good, VALID_ASSETS;
      var front, last := batch[..|batch| - 1], batch[|batch| - 1];
      assert batch == front + [last] && last !in front;
      BatchMoves(s, front, now, last);
      BatchKeepsGood(s, front, now);
      CutShort(Batch(s, front, now), last, now, writes);
    }
  }

  lemma CutShort(s: State, i: nat, now: int, writes: nat)
    requires i < |s.plans| && s.plans[i].status == Active
    ensures Cut(s, i, now, writes) != Turn(s, i, now) <==> writes < Writes(s, i, now)
  {
    hide RefPrice, Quantity, Exhausted, Balance, Credit, Debit;
    if writes < Writes(s, i, now) {
      assert Turn(s, i, now).plans[i] != s.plans[i];
    }
  }

  // ----- conservation -----

  /** The database takes every write of every batch. */
  predicate Whole(es: seq<Event>) {
    forall e :: e in es && e.RunBatch? ==> e.writes >= 4
  }

  /** The batch is broken off between logging a purchase of plan i and updating the plan. */
  predicate HalfLogs(s: State, e: Event, i: nat) {
    && e.RunBatch? && Accepts(s, e) && e.batch != [] && e.writes == 3 && e.batch[|e.batch| - 1] == i
    && Writes(Batch(s, e.batch[..|e.batch| - 1], e.now), i, e.now) == 4
  }

  lemma WholeBatch(s: State, batch: seq<nat>, now: int, writes: nat)
    requires writes >= 4 && forall k :: 0 <= k < |batch| ==> batch[k] < |s.plans|
    ensures CutBatch(s, batch, now, writes) == Batch(s, batch, now)
  {
  }

  function Invested(plans: seq<Plan>, user: string): real {
    if plans == [] then 0.0
    else
      var p := plans[|plans| - 1];
      Invested(plans[..|plans| - 1], user) + if p.user == user then p.totalInvested else 0.0
  }

  function Acquired(plans: seq<Plan>, user: string, asset: string): real {
    if plans == [] then 0.0
    else
      var p := plans[|plans| - 1];
      Acquired(plans[..|plans| - 1], user, asset) + if p.user == user && p.asset == asset then p.totalAcquired else 0.0
  }

  lemma {:induction false} ReplacePlan(plans: seq<Plan>, i: nat, p: Plan, user: string, asset: string)
    requires i < |plans| && p.user == plans[i].user && p.asset == plans[i].asset
    ensures Invested(plans[i := p], user) ==
            Invested(plans, user) + if p.user == user then p.totalInvested - plans[i].totalInvested else 0.0
    ensures Acquired(plans[i := p], user, asset) ==
            Acquired(plans, user, asset)
            + if p.user == user && p.asset == asset then p.totalAcquired - plans[i].totalAcquired else 0.0
  {
    var front := plans[..|plans| - 1];
    if i == |plans| - 1 {
      assert plans[i := p][..i] == front;
    } else {
      ReplacePlan(front, i, p, user, asset);
      assert plans[i := p][..|plans| - 1] == front[i := p];
    }
  }

  /** Euros in the wallet plus euros invested; assets in the wallet less assets acquired. */
  function Euros(s: State, user: string): real {
    Balance(s.wallets, user, "EUR") + Invested(s.plans, user)
  }

  function Surplus(s: State, user: string, asset: string): real {
    Balance(s.wallets, user, asset) - Acquired(s.plans, user, asset)
  }

  lemma TurnConserves(s: State, i: nat, now: int, user: string, asset: string)
    requires Good(s) && i < |s.plans| && asset != "EUR"
    ensures Euros(Turn(s, i, now), user) == Euros(s, user)
    ensures Surplus(Turn(s, i, now), user, asset) == Surplus(s, user, asset)
  {
    hide Invested, Acquired, RefPrice, Round8;
    var p, s' := s.plans[i], Turn(s, i, now);
    assert GoodPlan(p) && p.asset != "EUR";
    if s'.plans != s.plans {
      ReplacePlan(s.plans, i, s'.plans[i], user, asset);
    }
  }

  lemma {:induction false} BatchConserves(s: State, batch: seq<nat>, now: int, user: string, asset: string)
    requires Good(s) && asset != "EUR" && forall k :: 0 <= k < |batch| ==> batch[k] < |s.plans|
    ensures Euros(Batch(s, batch, now), user) == Euros(s, user)
    ensures Surplus(Batch(s, batch, now), user, asset) == Surplus(s, user, asset)
  {
    hide Good, Turn, Euros, Surplus;
    if batch != [] {
      var before := batch[..|batch| - 1];
      BatchConserves(s, before, now, user, asset);
      BatchKeepsGood(s, before, now);
      TurnConserves(Batch(s, before, now), batch[|batch| - 1], now, user, asset);
    }
  }

  /**
    Over every run whose writes are all taken, for every user: the euros taken from the wallet are
    exactly the rise of what the user's plans have invested, and each asset credited is exactly the
    rise of what they have acquired.
  */
  lemma {:induction false} RunsConserve(s: State, es: seq<Event>, user: string, asset: string)
    requires Good(s) && asset != "EUR" && Whole(es)
    ensures Euros(Run(s, es), user) == Euros(s, user)
    ensures Surplus(Run(s, es), user, asset) == Surplus(s, user, asset)
  {
    hide Good, Accepts, Step, Euros, Surplus;
    if es != [] {
      var before, e := Run(s, es[..|es| - 1]), es[|es| - 1];
      RunsConserve(s, es[..|es| - 1], user, asset);
      RunsStayGood(s, es[..|es| - 1]);
      assert e in es;
      StepConserves(before, e, user, asset);
    }
  }

  lemma StepConserves(s: State, e: Event, user: string, asset: string)
    requires Good(s) && asset != "EUR" && (e.RunBatch? ==> e.writes >= 4)
    ensures Euros(Step(s, e), user) == Euros(s, user)
    ensures Surplus(Step(s, e), user, asset) == Surplus(s, user, asset)
  {
    hide Batch, CutBatch, Good, Euros, Surplus;
    if Accepts(s, e) {
      match e {
        case RunBatch(batch, now, writes) =>
          WholeBatch(s, batch, now, writes);
          BatchConserves(s, batch, now, user, asset);
        case Create(u, a, eur, interval, max, now) =>
          AddedConserves(s, NewPlan(u, a, eur, interval, max, now), user, asset);
        case Pause(_, i) => ChangedConserves(s, i, s.plans[i].(status := Paused), user, asset);
        case Resume(_, i, now) =>
          ChangedConserves(s, i, s.plans[i].(status := Active, nextExecution := now), user, asset);
        case Cancel(_, i) => ChangedConserves(s, i, s.plans[i].(status := Cancelled), user, asset);
      }
    }
  }

  lemma AddedConserves(s: State, p: Plan, user: string, asset: string)
    requires p.totalInvested == 0.0 && p.totalAcquired == 0.0
    ensures Euros(s.(plans := s.plans + [p]), user) == Euros(s, user)
    ensures Surplus(s.(plans := s.plans + [p]), user, asset) == Surplus(s, user, asset)
  {
    hide Balance;
    assert (s.plans + [p])[..|s.plans|] == s.plans;
  }

  lemma ChangedConserves(s: State, i: nat, p: Plan, user: string, asset: string)
    requires i < |s.plans| && p.user == s.plans[i].user && p.asset == s.plans[i].asset
    requires p.totalInvested == s.plans[i].totalInvested && p.totalAcquired == s.plans[i].totalAcquired
    ensures Euros(s.(plans := s.plans[i := p]), user) == Euros(s, user)
    ensures Surplus(s.(plans := s.plans[i := p]), user, asset) == Surplus(s, user, asset)
  {
    hide Balance, Invested, Acquired;
    ReplacePlan(s.plans, i, p, user, asset);
  }

  /**
    A purchase broken off by the database: it loses the user's euros exactly when the debit was taken
    and the plan's update was not, it gives assets no plan accounts for exactly when the credit was
    taken as well, and in both cases the plan is as it was, due again.
  */
  lemma BrokenPurchaseExactlyWhen(s: State, i: nat, now: int, writes: nat)
    requires Good(s) && Executes(s, i, now) && Quantity(s.plans[i]) > 0.0
    ensures var p, s' := s.plans[i], Cut(s, i, now, writes);
            && (Euros(s', p.user) == Euros(s, p.user) <==> writes == 0 || writes >= 4)
            && (Surplus(s', p.user, p.asset) == Surplus(s, p.user, p.asset) <==> writes <= 1 || writes >= 4)
            && (writes < 4 ==> s'.plans == s.plans)
  {
    hide RefPrice, Quantity, Turn;
    var p := s.plans[i];
    assert GoodPlan(p);
    NoEuroPlans(p);
    if writes >= 4 {
      TurnConserves(s, i, now, p.user, p.asset);
    }
  }

  // ----- executions of one plan -----

  function CountOf(xs: seq<Execution>, i: nat): nat {
    if xs == [] then 0 else CountOf(xs[..|xs| - 1], i) + if xs[|xs| - 1].plan == i then 1 else 0
  }

  predicate Belong(s: State) {
    forall k :: 0 <= k < |s.executions| ==> s.executions[k].plan < |s.plans|
  }

  /** Any two executions of plan i are an interval apart, and the next is not due before the last one's is over. */
  ghost predicate Spaced(s: State, i: nat)
    requires i < |s.plans|
  {
    var gap := IntervalSeconds(s.plans[i].interval);
    && (forall k :: 0 <= k < |s.executions| && s.executions[k].plan == i ==>
          s.executions[k].at + gap <= s.plans[i].nextExecution)
    && (forall j, k :: 0 <= j < k < |s.executions| && s.executions[j].plan == i && s.executions[k].plan == i ==>
          s.executions[j].at + gap <= s.executions[k].at)
  }

  lemma TurnKeepsSpaced(s: State, n: nat, now: int, i: nat)
    requires n < |s.plans| && i < |s.plans| && Spaced(s, i)
    ensures Spaced(Turn(s, n, now), i)
    ensures Turn(s, n, now).plans[i].interval == s.plans[i].interval
  {
    hide RefPrice, Quantity;
  }

  lemma {:induction false} BatchKeepsSpaced(s: State, batch: seq<nat>, now: int, i: nat)
    requires i < |s.plans| && Spaced(s, i) && forall k :: 0 <= k < |batch| ==> batch[k] < |s.plans|
    ensures Spaced(Batch(s, batch, now), i)
  {
    hide Spaced, Turn;
    if batch != [] {
      BatchKeepsSpaced(s, batch[..|batch| - 1], now, i);
      TurnKeepsSpaced(Batch(s, batch[..|batch| - 1], now), batch[|batch| - 1], now, i);
    }
  }

  lemma {:induction false} PlansStay(s: State, es: seq<Event>)
    ensures |Run(s, es).plans| >= |s.plans|
  {
    if es != [] {
      PlansStay(s, es[..|es| - 1]);
    }
  }

  /** Every execution of plan i is at least an interval before `now`. */
  ghost predicate Rested(s: State, i: nat, now: int)
    requires i < |s.plans|
  {
    forall k :: 0 <= k < |s.executions| && s.executions[k].plan == i ==>
      s.executions[k].at + IntervalSeconds(s.plans[i].interval) <= now
  }

  /** A resume keeps a plan's spacing exactly when the plan is rested, as it is once it was due anyway. */
  lemma ResumeKeepsSpacedExactlyWhen(s: State, user: string, i: nat, now: int)
    requires Accepts(s, Resume(user, i, now)) && Spaced(s, i)
    ensures Spaced(Step(s, Resume(user, i, now)), i) <==> Rested(s, i, now)
    ensures now >= s.plans[i].nextExecution ==> Rested(s, i, now)
  {
    var s' := Step(s, Resume(user, i, now));
    assert s'.plans[i].interval == s.plans[i].interval && s'.executions == s.executions;
  }

  /** In the run, no accepted resume of plan i comes before the plan is rested, and no purchase of it is half logged. */
  ghost predicate Undisturbed(s: State, es: seq<Event>, i: nat)
    requires i < |s.plans|
  {
    es != [] ==>
      var front, e := es[..|es| - 1], es[|es| - 1];
      PlansStay(s, front);
      && Undisturbed(s, front, i)
      && !HalfLogs(Run(s, front), e, i)
      && (e.Resume? && e.plan == i && Accepts(Run(s, front), e) ==> Rested(Run(s, front), i, e.now))
  }

  /** Plan i is spaced after every step of the run. */
  ghost predicate AlwaysSpaced(s: State, es: seq<Event>, i: nat)
    requires i < |s.plans|
  {
    PlansStay(s, es);
    Spaced(Run(s, es), i) && (es != [] ==> AlwaysSpaced(s, es[..|es| - 1], i))
  }

  /** A turn broken off keeps a plan's spacing exactly when it did not log a purchase of it. */
  lemma CutKeepsSpacedExactlyWhen(s: State, n: nat, now: int, writes: nat, i: nat)
    requires n < |s.plans| && i < |s.plans| && Spaced(s, i)
    ensures Spaced(Cut(s, n, now, writes), i) <==> !(n == i && writes == 3 && Writes(s, n, now) == 4)
  {
    hide RefPrice, Quantity, Turn;
    TurnKeepsSpaced(s, n, now, i);
    var s' := Cut(s, n, now, writes);
    if writes < Writes(s, n, now) && writes == 3 {
      var last := |s.executions|;
      assert s'.executions[last].plan == n && s'.executions[last].at == now;
      assert now >= s.plans[n].nextExecution;
    }
  }

  lemma BatchStepSpaced(s: State, e: Event, i: nat)
    requires i < |s.plans| && Spaced(s, i) && e.RunBatch? && Accepts(s, e)
    ensures |Step(s, e).plans| == |s.plans|
    ensures Spaced(Step(s, e), i) <==> !HalfLogs(s, e, i)
  {
    hide Batch, Cut, Writes, Spaced;
    if e.batch != [] {
      var front, last := e.batch[..|e.batch| - 1], e.batch[|e.batch| - 1];
      BatchKeepsSpaced(s, front, e.now, i);
      CutKeepsSpacedExactlyWhen(Batch(s, front, e.now), last, e.now, e.writes, i);
    }
  }

  lemma StepKeepsSpaced(s: State, e: Event, i: nat)
    requires i < |s.plans| && Spaced(s, i) && !(e.RunBatch? && Accepts(s, e))
    requires !(e.Resume? && e.plan == i && Accepts(s, e))
    ensures |Step(s, e).plans| >= |s.plans| && Spaced(Step(s, e), i)
  {
    hide Batch, CutBatch;
  }

  /**
    Over every run a plan's executions stay at least one interval apart, and the plan is never due before
    the last one's interval is over, exactly as long as every resume of the plan waits until it is rested
    and no batch is broken off between logging a purchase of the plan and updating it.
  */
  lemma {:induction false} ExecutionsAnIntervalApart(s: State, es: seq<Event>, i: nat)
    requires i < |s.plans| && Spaced(s, i)
    ensures AlwaysSpaced(s, es, i) <==> Undisturbed(s, es, i)
  {
    hide Spaced, Accepts, Step, Rested, HalfLogs;
    if es != [] {
      var front, e := es[..|es| - 1], es[|es| - 1];
      PlansStay(s, front);
      ExecutionsAnIntervalApart(s, front, i);
      if AlwaysSpaced(s, front, i) {
        LastStep(Run(s, front), e, i);
      }
    }
  }

  lemma LastStep(s: State, e: Event, i: nat)
    requires i < |s.plans| && Spaced(s, i)
    ensures |Step(s, e).plans| >= |s.plans|
    ensures Spaced(Step(s, e), i) <==>
            !HalfLogs(s, e, i) && (e.Resume? && e.plan == i && Accepts(s, e) ==> Rested(s, i, e.now))
  {
    hide Spaced, Accepts, Rested, Batch, CutBatch, Writes;
    if e.RunBatch? && Accepts(s, e) {
      BatchStepSpaced(s, e, i);
    } else if e.Resume? && e.plan == i && Accepts(s, e) {
      ResumeKeepsSpacedExactlyWhen(s, e.user, i, e.now);
    } else {
      StepKeepsSpaced(s, e, i);
    }
  }

  /** Resuming a plan makes it due at once: after an execution it executes again at any later moment. */
  lemma ResumeBreaksTheInterval(s: State, i: nat, now: int, later: int)
    requires i < |s.plans| && Executes(s, i, now)
    requires var p := s.plans[i];
             && p.status == Active && p.asset in VALID_ASSETS && p.maxExecutions.None?
             && Balance(s.wallets, p.user, "EUR") >= 2.0 * p.amountEur && p.amountEur > 0.0
    ensures var user := s.plans[i].user;
            var es := [RunBatch([i], now, 4), Pause(user, i), Resume(user, i, later), RunBatch([i], later, 4)];
            Run(s, es).executions == s.executions + [
              Execution(i, now, s.plans[i].amountEur, Quantity(s.plans[i])),
              Execution(i, later, s.plans[i].amountEur, Quantity(s.plans[i]))]
  {
    var p, user := s.plans[i], s.plans[i].user;
    OneTurn(s, i, now);
    var s1 := Turn(s, i, now);
    var s2 := s1.(plans := s1.plans[i := s1.plans[i].(status := Paused)]);
    var s3 := s2.(plans := s2.plans[i := s2.plans[i].(status := Active, nextExecution := later)]);
    assert p.asset != "EUR";
    assert Balance(s3.wallets, user, "EUR") == Balance(s.wallets, user, "EUR") - p.amountEur;
    OneTurn(s3, i, later);
    var a, b, c, d := RunBatch([i], now, 4), Pause(user, i), Resume(user, i, later), RunBatch([i], later, 4);
    assert Step(s, a) == s1 && Step(s1, b) == s2 && Step(s2, c) == s3;
    assert Step(s3, d) == Turn(s3, i, later);
    RunFour(s, a, b, c, d);
    assert Quantity(s3.plans[i]) == Quantity(p);
  }

  lemma OneTurn(s: State, i: nat, now: int)
    requires i < |s.plans| && s.plans[i].status == Active
    ensures Step(s, RunBatch([i], now, 4)) == Turn(s, i, now)
  {
    assert [i][..0] == [];
    assert Batch(s, [], now) == s;
  }

  lemma RunFour(s: State, a: Event, b: Event, c: Event, d: Event)
    ensures Run(s, [a, b, c, d]) == Step(Step(Step(Step(s, a), b), c), d)
  {
    hide Step;
    assert [a, b, c, d][..3] == [a, b, c] && [a, b, c][..2] == [a, b] && [a, b][..1] == [a] && [a][..0] == [];
    assert Run(s, []) == s && Run(s, [a]) == Step(s, a) && Run(s, [a, b]) == Step(Step(s, a), b);
    assert Run(s, [a, b, c]) == Step(Step(Step(s, a), b), c);
  }

  /** The execution log agrees with the counters, so a plan is logged at most its maximum number of times. */
  ghost predicate Counted(s: State) {
    Belong(s) && forall i :: 0 <= i < |s.plans| ==> CountOf(s.executions, i) == s.plans[i].totalExecutions
  }

  lemma TurnKeepsCounted(s: State, n: nat, now: int)
    requires n < |s.plans| && Counted(s)
    ensures Counted(Turn(s, n, now))
  {
    hide RefPrice, Quantity, Paid;
    var s' := Turn(s, n, now);
    assert |s'.executions| > |s.executions| ==> s'.executions[..|s.executions|] == s.executions;
  }

  lemma {:induction false} BatchKeepsCounted(s: State, batch: seq<nat>, now: int)
    requires Counted(s) && forall k :: 0 <= k < |batch| ==> batch[k] < |s.plans|
    ensures Counted(Batch(s, batch, now))
  {
    hide Counted, Turn;
    if batch != [] {
      BatchKeepsCounted(s, batch[..|batch| - 1], now);
      TurnKeepsCounted(Batch(s, batch[..|batch| - 1], now), batch[|batch| - 1], now);
    }
  }

  lemma {:induction false} NothingLogged(xs: seq<Execution>, i: nat)
    requires forall k :: 0 <= k < |xs| ==> xs[k].plan < i
    ensures CountOf(xs, i) == 0
  {
    if xs != [] {
      NothingLogged(xs[..|xs| - 1], i);
    }
  }

  /** The log agrees with the counters after every step of the run. */
  ghost predicate AlwaysCounted(s: State, es: seq<Event>) {
    Counted(Run(s, es)) && (es != [] ==> AlwaysCounted(s, es[..|es| - 1]))
  }

  /** No batch of the run is broken off between logging a purchase and updating its plan. */
  predicate NoneHalfLogged(s: State, es: seq<Event>) {
    es != [] ==>
      var front, e := es[..|es| - 1], es[|es| - 1];
      && NoneHalfLogged(s, front)
      && !(e.RunBatch? && e.batch != [] && HalfLogs(Run(s, front), e, e.batch[|e.batch| - 1]))
  }

  lemma CutKeepsCountedExactlyWhen(s: State, n: nat, now: int, writes: nat)
    requires n < |s.plans| && Counted(s)
    ensures Counted(Cut(s, n, now, writes)) <==> !(writes == 3 && Writes(s, n, now) == 4)
  {
    hide RefPrice, Quantity, Turn, Paid, Debit;
    TurnKeepsCounted(s, n, now);
    var s' := Cut(s, n, now, writes);
    if writes < Writes(s, n, now) && writes == 3 {
      assert s'.executions[..|s.executions|] == s.executions;
      assert CountOf(s'.executions, n) == s'.plans[n].totalExecutions + 1;
    }
  }

  lemma StepCounted(s: State, e: Event)
    requires Counted(s)
    ensures Counted(Step(s, e)) <==> !(e.RunBatch? && e.batch != [] && HalfLogs(s, e, e.batch[|e.batch| - 1]))
  {
    hide Batch, Cut, Writes, CountOf;
    if Accepts(s, e) {
      if e.RunBatch? && e.batch != [] {
        var front, last := e.batch[..|e.batch| - 1], e.batch[|e.batch| - 1];
        BatchKeepsCounted(s, front, e.now);
        CutKeepsCountedExactlyWhen(Batch(s, front, e.now), last, e.now, e.writes);
      } else if e.Create? {
        NothingLogged(s.executions, |s.plans|);
      }
    }
  }

  /**
    Over every run the execution log agrees with the counters exactly as long as no batch is broken off
    between logging a purchase and updating its plan; and while it agrees, no plan is logged more often
    than its maximum.
  */
  lemma {:induction false} LogWithinMaximum(s: State, es: seq<Event>)
    requires Good(s) && Counted(s)
    ensures AlwaysCounted(s, es) <==> NoneHalfLogged(s, es)
    ensures var t := Run(s, es);
            AlwaysCounted(s, es) ==>
              forall i :: 0 <= i < |t.plans| && t.plans[i].maxExecutions.Some? ==>
                CountOf(t.executions, i) <= t.plans[i].maxExecutions.value
  {
    hide Step, HalfLogs, CountOf;
    RunsStayGood(s, es);
    if es != [] {
      var front := es[..|es| - 1];
      LogWithinMaximum(s, front);
      if AlwaysCounted(s, front) {
        StepCounted(Run(s, front), es[|es| - 1]);
      }
    }
  }
}
