/**
  The price of a swap (backend/routes/neno_exchange_routes.py, swap_quote and swap_tokens) and what
  a chain of swaps can be worth. NENO is sold to the platform at the bid and bought at the ask
  (backend/services/market_maker_service.py, get_pricing); every other asset has one price.
*/
module SwapArithmetic {
  import opened Rounding

  const PLATFORM_FEE := 0.003
  const KEPT := 0.997

  datatype Quote = Quote(eurValue: real, feeEur: real, netEur: real, receive: real)

  function SwapQuote(amount: real, fromPrice: real, toPrice: real): Quote
    requires toPrice > 0.0
  {
    var eurValue := amount * fromPrice;
    var feeEur := FeeOn(eurValue);
    var netEur := eurValue - feeEur;
    Quote(eurValue, feeEur, netEur, ReceiveFor(netEur, toPrice))
  }

  function ReceiveFor(netEur: real, toPrice: real): real
    requires toPrice > 0.0
  {
    Round8(netEur / toPrice)
  }

  function FeeOn(eurValue: real): real {
    Round8(eurValue * PLATFORM_FEE)
  }

  /** What rounding can add to the euro value of one swap into an asset with this price. */
  function Slack(toPrice: real): real {
    HALF_UNIT_8 + HALF_UNIT_8 * toPrice
  }

  lemma FeeWithinValue(eur: real)
    requires eur >= 0.0
    ensures 0.0 <= FeeOn(eur) <= eur
    ensures eur * PLATFORM_FEE - HALF_UNIT_8 <= FeeOn(eur) <= eur * PLATFORM_FEE + HALF_UNIT_8
  {
    RoundingError(eur * PLATFORM_FEE);
    RoundMonotone(0.0, eur * PLATFORM_FEE);
    RoundZero();
    if eur * PLATFORM_FEE < HALF_UNIT_8 {
      assert Nearest(eur * PLATFORM_FEE * 100_000_000.0) == 0;
    }
  }

  lemma ScaleBy(x: real, y: real, k: real)
    requires x <= y && k >= 0.0
    ensures x * k <= y * k && k * x <= k * y
  {
  }

  lemma SignOfProduct(k: real, x: real)
    requires k > 0.0
    ensures k * x <= 0.0 <==> x <= 0.0
    ensures k * x >= 0.0 <==> x >= 0.0
  {
  }

  lemma ScaledError(x: real, q: real, price: real, net: real)
    requires price > 0.0 && q - HALF_UNIT_8 <= x <= q + HALF_UNIT_8 && q * price == net
    ensures net - HALF_UNIT_8 * price <= x * price <= net + HALF_UNIT_8 * price
  {
    ScaleBy(x, q + HALF_UNIT_8, price);
    ScaleBy(q - HALF_UNIT_8, x, price);
    assert (q + HALF_UNIT_8) * price == q * price + HALF_UNIT_8 * price;
    assert (q - HALF_UNIT_8) * price == q * price - HALF_UNIT_8 * price;
  }

  lemma Received(net: real, price: real)
    requires net >= 0.0 && price > 0.0
    ensures 0.0 <= ReceiveFor(net, price)
    ensures net - HALF_UNIT_8 * price <= ReceiveFor(net, price) * price <= net + HALF_UNIT_8 * price
  {
    hide Round8;
    var q := net / price;
    assert q * price == net;
    SignOfProduct(price, q);
    RoundingError(q);
    RoundMonotone(0.0, q);
    RoundZero();
    var received := ReceiveFor(net, price);
    ScaledError(received, q, price, net);
  }

  /** One swap keeps 99.7% of the euro value put in, no more and no less, up to rounding, and never goes negative. */
  lemma SwapLosesFee(amount: real, fromPrice: real, toPrice: real)
    requires amount >= 0.0 && fromPrice > 0.0 && toPrice > 0.0
    ensures var q := SwapQuote(amount, fromPrice, toPrice);
            && 0.0 <= q.receive && 0.0 <= q.feeEur <= q.eurValue
            && KEPT * (amount * fromPrice) - Slack(toPrice) <= q.receive * toPrice
               <= KEPT * (amount * fromPrice) + Slack(toPrice)
  {
    hide FeeOn, ReceiveFor;
    var q := SwapQuote(amount, fromPrice, toPrice);
    assert q.eurValue >= 0.0;
    FeeWithinValue(q.eurValue);
    Received(q.netEur, toPrice);
  }

  // ----- chains of swaps -----

  /** The platform buys an asset at its bid and sells it at its ask; they are equal except for NENO. */
  datatype Price = Price(bid: real, ask: real)

  type Market = string -> Price

  ghost predicate Sound(m: Market) {
    forall a :: 0.0 < m(a).bid <= m(a).ask
  }

  /** A value for every asset between what the platform pays for it and what it asks. */
  ghost predicate Between(m: Market, value: string -> real) {
    forall a :: m(a).bid <= value(a) <= m(a).ask
  }

  /** The amount held after converting everything held into each asset of the path in turn. */
  function Held(m: Market, path: seq<string>, amount: real): real
    requires path != []
    requires forall a :: m(a).ask > 0.0
  {
    if |path| == 1 then amount else
    var before := path[..|path| - 1];
    SwapQuote(Held(m, before, amount), m(before[|before| - 1]).bid, m(path[|path| - 1]).ask).receive
  }

  function Power(k: nat): (p: real)
    ensures 0.0 < p <= 1.0
  {
    if k == 0 then 1.0 else KEPT * Power(k - 1)
  }

  /** The rounding slack of a path: each swap's slack, reduced by the fees of the swaps after it. */
  function PathSlack(m: Market, path: seq<string>): real
    requires path != []
  {
    if |path| == 1 then 0.0
    else KEPT * PathSlack(m, path[..|path| - 1]) + Slack(m(path[|path| - 1]).ask)
  }

  lemma ChainStep(held: real, receive: real, bid: real, ask: real, from: real, to: real,
                  power: real, start: real, slack: real, more: real)
    requires held >= 0.0 && receive >= 0.0 && bid <= from && to <= ask
    requires held * from <= power * start + slack
    requires receive * ask <= KEPT * (held * bid) + more
    ensures receive * to <= (KEPT * power) * start + (KEPT * slack + more)
  {
    ScaleBy(to, ask, receive);
    ScaleBy(bid, from, held);
    assert KEPT * (power * start + slack) == (KEPT * power) * start + KEPT * slack;
  }

  /**
    After any chain of swaps the holding is worth at most 0.997^k of what it was worth at the start,
    plus the rounding slack, at any values between bid and ask.
  */
  lemma {:induction false} ChainLosesFees(m: Market, value: string -> real, path: seq<string>, amount: real)
    requires Sound(m) && Between(m, value) && path != [] && amount >= 0.0
    ensures Held(m, path, amount) >= 0.0
    ensures Held(m, path, amount) * value(path[|path| - 1]) <=
            Power(|path| - 1) * (amount * value(path[0])) + PathSlack(m, path)
  {
    hide SwapQuote, Slack, Held, Power, PathSlack;
    if |path| == 1 {
      PathStarts(m, path, amount);
    } else {
      var before := path[..|path| - 1];
      var from, to := before[|before| - 1], path[|path| - 1];
      ChainLosesFees(m, value, before, amount);
      PathGoesOn(m, path, amount);
      var held := Held(m, before, amount);
      SwapLosesFee(held, m(from).bid, m(to).ask);
      ChainStep(held, Held(m, path, amount), m(from).bid, m(to).ask, value(from), value(to),
                Power(|before| - 1), amount * value(path[0]), PathSlack(m, before), Slack(m(to).ask));
    }
  }

  lemma PathStarts(m: Market, path: seq<string>, amount: real)
    requires Sound(m) && |path| == 1
    ensures Held(m, path, amount) == amount && Power(0) == 1.0 && PathSlack(m, path) == 0.0
  {
  }

  lemma PathGoesOn(m: Market, path: seq<string>, amount: real)
    requires Sound(m) && |path| > 1
    ensures var before := path[..|path| - 1];
            && Held(m, path, amount) ==
               SwapQuote(Held(m, before, amount), m(path[|path| - 2]).bid, m(path[|path| - 1]).ask).receive
            && Power(|path| - 1) == KEPT * Power(|path| - 2)
            && PathSlack(m, path) == KEPT * PathSlack(m, before) + Slack(m(path[|path| - 1]).ask)
  {
    hide SwapQuote, Slack;
  }

  /** A cycle whose fees exceed its rounding slack returns strictly less of the asset than it took. */
  lemma CyclesLose(m: Market, value: string -> real, path: seq<string>, amount: real)
    requires Sound(m) && Between(m, value) && |path| > 1 && amount > 0.0
    requires path[|path| - 1] == path[0]
    requires (1.0 - Power(|path| - 1)) * (amount * value(path[0])) > PathSlack(m, path)
    ensures Held(m, path, amount) < amount
  {
    hide Held, PathSlack, Power;
    ChainLosesFees(m, value, path, amount);
    LessHeld(Held(m, path, amount), amount, value(path[0]), Power(|path| - 1), PathSlack(m, path));
  }

  lemma LessHeld(held: real, amount: real, v: real, power: real, slack: real)
    requires v > 0.0
    requires held * v <= power * (amount * v) + slack
    requires (1.0 - power) * (amount * v) > slack
    ensures held < amount
  {
    assert (1.0 - power) * (amount * v) == amount * v - power * (amount * v);
    if amount <= held {
      ScaleBy(amount, held, v);
      assert false;
    }
  }

  /** The slack of a path is at most the plain sum of its swaps' slacks. */
  function SlackSum(m: Market, path: seq<string>): real
    requires path != []
  {
    if |path| == 1 then 0.0 else SlackSum(m, path[..|path| - 1]) + Slack(m(path[|path| - 1]).ask)
  }

  lemma {:induction false} SlackAccumulates(m: Market, path: seq<string>)
    requires Sound(m) && path != []
    ensures 0.0 <= PathSlack(m, path) <= SlackSum(m, path)
  {
    if |path| > 1 {
      SlackAccumulates(m, path[..|path| - 1]);
    }
  }

  // ----- the market maker's bid and ask -----

  function Clamp(x: real, low: real, high: real): real {
    if x < low then low else if x > high then high else x
  }

  datatype Quotation = Quotation(skewBps: real, spreadBps: real, bid: real, ask: real)

  const BASE_SPREAD_BPS := 50.0
  const MIN_SPREAD_BPS := 20.0
  const MAX_SPREAD_BPS := 200.0

  function MidPrice(netPressure: real): real {
    Round2(10_000.0 + Clamp(netPressure * 0.0001, -500.0, 500.0))
  }

  function Volatility(volume: real): real {
    (if volume / 100.0 < 1.0 then volume / 100.0 else 1.0) * 30.0
  }

  function SkewBps(treasuryNeno: real): real {
    Clamp((treasuryNeno / 500.0 - 1.0) * 0.08 * 10_000.0, -MAX_SPREAD_BPS / 2.0, MAX_SPREAD_BPS / 2.0)
  }

  function SpreadBps(skewBps: real, volume: real): real {
    var absSkew := if skewBps < 0.0 then -skewBps else skewBps;
    Clamp(BASE_SPREAD_BPS + absSkew + Volatility(volume), MIN_SPREAD_BPS, MAX_SPREAD_BPS)
  }

  function Quotes(mid: real, half: real, skew: real): (real, real) {
    var bid, ask := Round2(mid * (1.0 - half) + skew * mid), Round2(mid * (1.0 + half) + skew * mid);
    (if bid >= ask then Round2(ask - mid * (MIN_SPREAD_BPS / 10_000.0)) else bid, ask)
  }

  function Pricing(mid: real, treasuryNeno: real, volume: real): Quotation {
    var skewBps := SkewBps(treasuryNeno);
    var spreadBps := SpreadBps(skewBps, volume);
    var (bid, ask) := Quotes(mid, spreadBps / 10_000.0 / 2.0, skewBps / 10_000.0);
    Quotation(skewBps, spreadBps, bid, ask)
  }

  lemma MidRange(netPressure: real)
    ensures 9_000.0 <= MidPrice(netPressure) <= 11_000.0
  {
    hide Round2;
    RoundingError(10_000.0 + Clamp(netPressure * 0.0001, -500.0, 500.0));
  }

  /** Whatever the order flow, the inventory and the volume, the quotes make the market sound. */
  lemma QuotesAreSound(netPressure: real, treasuryNeno: real, volume: real)
    requires volume >= 0.0
    ensures var q := Pricing(MidPrice(netPressure), treasuryNeno, volume);
            0.0 < q.bid < q.ask
  {
    hide Quotes, MidPrice;
    MidRange(netPressure);
    var skewBps := SkewBps(treasuryNeno);
    var spreadBps := SpreadBps(skewBps, volume);
    QuotesApart(MidPrice(netPressure), spreadBps / 10_000.0 / 2.0, skewBps / 10_000.0);
  }

  lemma QuotesApart(mid: real, half: real, skew: real)
    requires mid >= 9_000.0 && 0.0025 <= half <= 0.01 && -0.01 <= skew <= 0.01
    ensures 0.0 < Quotes(mid, half, skew).0 < Quotes(mid, half, skew).1
  {
    hide Round2;
    QuoteWidth(mid, half, skew);
    RoundingError(mid * (1.0 - half) + skew * mid);
    RoundingError(mid * (1.0 + half) + skew * mid);
  }

  lemma QuoteWidth(mid: real, half: real, skew: real)
    requires mid >= 9_000.0 && 0.0025 <= half <= 0.01 && -0.01 <= skew <= 0.01
    ensures mid * (1.0 - half) + skew * mid >= 8_000.0
    ensures mid * (1.0 + half) + skew * mid >= mid * (1.0 - half) + skew * mid + 40.0
  {
    ScaleBy(0.0025, half, mid);
    ScaleBy(0.98, 1.0 - half + skew, mid);
    assert mid * (1.0 - half) + skew * mid == mid * (1.0 - half + skew);
    assert mid * (1.0 + half) == mid + mid * half && mid * (1.0 - half) == mid - mid * half;
  }

  /** How many basis points the treasury is off its target, times the skew factor and unclamped. */
  function InventoryBps(treasuryNeno: real): real {
    (treasuryNeno / 500.0 - 1.0) * 0.08 * 10_000.0
  }

  function Abs(x: real): real {
    if x < 0.0 then -x else x
  }

  lemma NearestAtMost(y: real, m: int)
    ensures Nearest(y) <= m <==> y < m as real + 0.5 || (y == m as real + 0.5 && m % 2 == 0)
    ensures Nearest(y) >= m <==> y > m as real - 0.5 || (y == m as real - 0.5 && m % 2 == 0)
  {
  }

  /** A price moved by a number of basis points and rounded to cents. */
  function Shifted(mid: real, bps: real): real {
    Round2(mid + mid * bps / 10_000.0)
  }

  function Times(price: real, bps: real): real {
    price * bps
  }

  /** Below a limit, or at it if the tie goes the right way. */
  predicate Below(x: real, limit: real, even: bool) {
    x < limit || (x == limit && even)
  }

  lemma ShiftedPrice(mid: real, cents: int, bps: real)
    requires mid == cents as real / 100.0
    ensures Shifted(mid, bps) <= mid <==> Below(Times(mid, bps), 50.0, cents % 2 == 0)
    ensures Shifted(mid, bps) >= mid <==> Below(-Times(mid, bps), 50.0, cents % 2 == 0)
  {
    hide Nearest;
    var x := mid * bps;
    var y := (mid + x / 10_000.0) * 100.0;
    assert y == cents as real + x / 100.0;
    NearestAtMost(y, cents);
  }

  /** The quotes as the mid price shifted, and the spread without its limits, which no input reaches. */
  lemma QuotesAreShifts(mid: real, treasuryNeno: real, volume: real)
    requires mid >= 9_000.0 && volume >= 0.0
    ensures var s := SkewBps(treasuryNeno);
            var half := (BASE_SPREAD_BPS + Abs(s) + Volatility(volume)) / 2.0;
            var q := Pricing(mid, treasuryNeno, volume);
            q.bid == Shifted(mid, s - half) && q.ask == Shifted(mid, s + half)
  {
    hide Shifted, Quotes, SpreadBps, Volatility, SkewBps, Abs;
    SkewRange(treasuryNeno);
    var s, spread := SkewBps(treasuryNeno), SpreadBps(SkewBps(treasuryNeno), volume);
    SpreadSum(s, volume);
    QuotesShifted(mid, spread, s);
  }

  lemma SpreadSum(skewBps: real, volume: real)
    requires volume >= 0.0 && -100.0 <= skewBps <= 100.0
    ensures SpreadBps(skewBps, volume) == BASE_SPREAD_BPS + Abs(skewBps) + Volatility(volume)
    ensures 50.0 <= SpreadBps(skewBps, volume) <= 180.0
  {
    hide Volatility;
    VolatilityRange(volume);
  }

  lemma QuotesShifted(mid: real, spread: real, s: real)
    requires mid >= 9_000.0 && 50.0 <= spread <= 180.0 && -100.0 <= s <= 100.0
    ensures Quotes(mid, spread / 10_000.0 / 2.0, s / 10_000.0) ==
            (Shifted(mid, s - spread / 2.0), Shifted(mid, s + spread / 2.0))
  {
    hide Shifted, Quotes, Round2;
    var half, skew := spread / 10_000.0 / 2.0, s / 10_000.0;
    NeverCrossed(mid, half, skew);
    ShiftForms(mid, half, skew, spread, s);
  }

  lemma ShiftForms(mid: real, half: real, skew: real, spread: real, s: real)
    requires half == spread / 10_000.0 / 2.0 && skew == s / 10_000.0
    ensures Round2(mid * (1.0 - half) + skew * mid) == Shifted(mid, s - spread / 2.0)
    ensures Round2(mid * (1.0 + half) + skew * mid) == Shifted(mid, s + spread / 2.0)
  {
    hide Round2, Shifted;
    SameShift(mid * (1.0 - half) + skew * mid, mid, s - spread / 2.0);
    SameShift(mid * (1.0 + half) + skew * mid, mid, s + spread / 2.0);
  }

  lemma SameShift(x: real, mid: real, bps: real)
    requires x == mid + mid * bps / 10_000.0
    ensures Round2(x) == Shifted(mid, bps)
  {
    hide Round2;
  }

  lemma ShiftRises(mid: real, x: real, y: real)
    requires mid >= 0.0 && x <= y
    ensures Shifted(mid, x) <= Shifted(mid, y)
  {
    hide Round2;
    ScaleBy(x, y, mid);
    RoundMonotone(mid + mid * x / 10_000.0, mid + mid * y / 10_000.0);
  }

  /** The branch that repairs crossed quotes is never taken. */
  lemma NeverCrossed(mid: real, half: real, skew: real)
    requires mid >= 9_000.0 && 0.0025 <= half <= 0.01 && -0.01 <= skew <= 0.01
    ensures Quotes(mid, half, skew) ==
            (Round2(mid * (1.0 - half) + skew * mid), Round2(mid * (1.0 + half) + skew * mid))
  {
    hide Round2;
    QuoteWidth(mid, half, skew);
    RoundingError(mid * (1.0 - half) + skew * mid);
    RoundingError(mid * (1.0 + half) + skew * mid);
  }

  lemma VolatilityRange(volume: real)
    requires volume >= 0.0
    ensures 0.0 <= Volatility(volume) <= 30.0
  {
  }

  lemma SkewRange(treasuryNeno: real)
    ensures -100.0 <= SkewBps(treasuryNeno) <= 100.0
    ensures SkewBps(treasuryNeno) == Clamp(InventoryBps(treasuryNeno), -100.0, 100.0)
  {
  }

  /** What the inventory, the volume and the order flow are worth in basis points and euros. */
  lemma MarketFigures(netPressure: real, treasuryNeno: real, volume: real)
    requires volume >= 0.0
    ensures InventoryBps(treasuryNeno) == 1.6 * (treasuryNeno - 500.0)
    ensures SkewBps(treasuryNeno) ==
            if treasuryNeno > 562.5 then 100.0 else if treasuryNeno < 437.5 then -100.0 else InventoryBps(treasuryNeno)
    ensures Volatility(volume) == if volume > 100.0 then 30.0 else 0.3 * volume
    ensures var drift := if netPressure > 5_000_000.0 then 500.0
                         else if netPressure < -5_000_000.0 then -500.0 else netPressure / 10_000.0;
            10_000.0 + drift - 0.005 <= MidPrice(netPressure) <= 10_000.0 + drift + 0.005
  {
    hide Round2;
    RoundingError(10_000.0 + Clamp(netPressure * 0.0001, -500.0, 500.0));
  }

  /**
    The quotes lie to the cent half a spread below and above the mid price moved by the skew, the spread
    being 50 basis points, the size of the skew and the volatility together.
  */
  lemma QuotesAroundSkewedMid(netPressure: real, treasuryNeno: real, volume: real)
    requires volume >= 0.0
    ensures var mid := MidPrice(netPressure);
            var q := Pricing(mid, treasuryNeno, volume);
            var s := SkewBps(treasuryNeno);
            var half := (50.0 + Abs(s) + Volatility(volume)) / 2.0;
            && q.skewBps == s && q.spreadBps == 2.0 * half
            && -0.005 <= q.bid - (mid + Times(mid, s - half) / 10_000.0) <= 0.005
            && -0.005 <= q.ask - (mid + Times(mid, s + half) / 10_000.0) <= 0.005
  {
    hide MidPrice, Shifted, Times, Volatility, SkewBps, Abs, SpreadBps, Quotes;
    var mid := MidPrice(netPressure);
    MidRange(netPressure);
    SkewRange(treasuryNeno);
    var s := SkewBps(treasuryNeno);
    SpreadSum(s, volume);
    QuotesAreShifts(mid, treasuryNeno, volume);
    var half := (50.0 + Abs(s) + Volatility(volume)) / 2.0;
    ShiftedNear(mid, s - half);
    ShiftedNear(mid, s + half);
  }

  lemma ShiftedNear(mid: real, bps: real)
    ensures -0.005 <= Shifted(mid, bps) - (mid + Times(mid, bps) / 10_000.0) <= 0.005
  {
    hide Round2;
    RoundingError(mid + mid * bps / 10_000.0);
  }

  lemma MidIsCents(netPressure: real)
    ensures MidPrice(netPressure) == Nearest(MidPrice(netPressure) * 100.0) as real / 100.0
  {
  }

  /**
    The mid price lies between the quotes exactly when the treasury is off its target by at most 50
    basis points, plus the volatility, plus what rounding to the cent hides. Past that a long treasury
    bids above mid and a short one asks below it.
  */
  lemma MidBetweenQuotesExactlyWhen(netPressure: real, treasuryNeno: real, volume: real)
    requires volume >= 0.0
    ensures var mid := MidPrice(netPressure);
            var q := Pricing(mid, treasuryNeno, volume);
            var excess := Times(mid, Abs(InventoryBps(treasuryNeno)) - BASE_SPREAD_BPS - Volatility(volume));
            var near := Below(excess, 100.0, Nearest(mid * 100.0) % 2 == 0);
            && (q.bid <= mid <= q.ask <==> near)
            && (q.bid > mid <==> !near && InventoryBps(treasuryNeno) > 0.0)
            && (q.ask < mid <==> !near && InventoryBps(treasuryNeno) < 0.0)
  {
    hide Pricing, MidPrice, Nearest, Shifted, InventoryBps, Volatility, SkewBps, Times, Below;
    var mid := MidPrice(netPressure);
    MidRange(netPressure);
    MidIsCents(netPressure);
    SkewRange(treasuryNeno);
    VolatilityRange(volume);
    QuotesAreShifts(mid, treasuryNeno, volume);
    var s, v := SkewBps(treasuryNeno), Volatility(volume);
    var half, cents := (BASE_SPREAD_BPS + Abs(s) + v) / 2.0, Nearest(mid * 100.0);
    ShiftedPrice(mid, cents, s - half);
    ShiftedPrice(mid, cents, s + half);
    ExcessOf(mid, s, InventoryBps(treasuryNeno), v, cents % 2 == 0);
  }

  /** The two shifts, compared with half a cent, in terms of how far the inventory is off. */
  lemma ExcessOf(mid: real, s: real, d: real, v: real, even: bool)
    requires mid >= 9_000.0 && s == Clamp(d, -100.0, 100.0) && 0.0 <= v <= 30.0
    ensures var half := (50.0 + Abs(s) + v) / 2.0;
            var near := Below(Times(mid, Abs(d) - 50.0 - v), 100.0, even);
            && (Below(Times(mid, s - half), 50.0, even) <==> near || d <= 0.0)
            && (Below(-Times(mid, s + half), 50.0, even) <==> near || d >= 0.0)
            && (d == 0.0 ==> near)
  {
    hide Times;
    var half, off := (50.0 + Abs(s) + v) / 2.0, Abs(d) - 50.0 - v;
    if d > 100.0 {
      TimesRises(mid, 20.0, off);
      TimesRises(mid, 10.0, s - half);
      TimesRises(mid, 0.0, s + half);
    } else if d < -100.0 {
      TimesRises(mid, 20.0, off);
      TimesRises(mid, s + half, -10.0);
      TimesRises(mid, s - half, 0.0);
    } else if d >= 0.0 {
      TimesHalf(mid, off, s - half);
      TimesRises(mid, 0.0, s + half);
      if d == 0.0 {
        TimesRises(mid, off, 0.0);
      }
    } else {
      TimesHalf(mid, off, -(s + half));
      TimesNegated(mid, s + half);
      TimesRises(mid, s - half, 0.0);
    }
  }

  lemma TimesRises(mid: real, x: real, y: real)
    requires mid >= 9_000.0 && x <= y
    ensures Times(mid, x) <= Times(mid, y)
    ensures x >= 10.0 ==> Times(mid, x) >= 90_000.0
    ensures y <= -10.0 ==> Times(mid, y) <= -90_000.0
    ensures x == 0.0 ==> Times(mid, x) == 0.0
    ensures y == 0.0 ==> Times(mid, y) == 0.0
  {
    ScaleBy(x, y, mid);
    if x >= 10.0 {
      ScaleBy(10.0, x, mid);
    }
    if y <= -10.0 {
      ScaleBy(y, -10.0, mid);
    }
  }

  lemma TimesHalf(mid: real, x: real, y: real)
    requires x == 2.0 * y
    ensures Times(mid, x) == 2.0 * Times(mid, y)
  {
  }

  lemma TimesNegated(mid: real, x: real)
    ensures Times(mid, -x) == -Times(mid, x)
  {
  }

  /**
    The more NENO the treasury holds, the higher it quotes: neither bid nor ask ever falls. So a long
    treasury never lowers its ask, whatever the market.
  */
  lemma MoreInventoryNeverLowersQuotes(netPressure: real, less: real, more: real, volume: real)
    requires volume >= 0.0 && less <= more
    ensures var mid := MidPrice(netPressure);
            var p, q := Pricing(mid, less, volume), Pricing(mid, more, volume);
            p.bid <= q.bid && p.ask <= q.ask
  {
    hide Pricing, MidPrice, Shifted, Volatility, SkewBps;
    var mid := MidPrice(netPressure);
    MidRange(netPressure);
    SkewRange(less);
    SkewRange(more);
    QuotesAreShifts(mid, less, volume);
    QuotesAreShifts(mid, more, volume);
    var s, t, v := SkewBps(less), SkewBps(more), Volatility(volume);
    var h, k := (BASE_SPREAD_BPS + Abs(s) + v) / 2.0, (BASE_SPREAD_BPS + Abs(t) + v) / 2.0;
    ShiftRises(mid, s - h, t - k);
    ShiftRises(mid, s + h, t + k);
  }
}
