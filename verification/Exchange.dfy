/**
  Wallet movements of a swap and of an off-ramp (backend/routes/neno_exchange_routes.py, swap_tokens
  and offramp_neno). The treasury is a user's wallets in the same collection
  (backend/services/market_maker_service.py, update_treasury): nothing is moved if no treasury user
  is configured, and a debit of a wallet that does not exist does nothing. Every read and write after
  the first can raise, and a write that raises may have been taken all the same.
*/
module Exchange {
  import opened Wrappers
  import opened Rounding
  import opened Sequences
  import opened SwapArithmetic
  import opened UserWallets

  function UpdateTreasury(w: Wallets, treasury: string, asset: string, delta: real): Wallets {
    if treasury == "" || delta == 0.0 then w
    else if delta > 0.0 then Credit(w, treasury, asset, delta)
    else Debit(w, treasury, asset, -delta)
  }

  /** What a user and the treasury hold of an asset together; a treasury trading with itself is one holder. */
  function Together(w: Wallets, user: string, treasury: string, asset: string): real {
    if user == treasury then Balance(w, user, asset)
    else Balance(w, user, asset) + Balance(w, treasury, asset)
  }

  /** Only the wallets of these two holders in these assets may differ. */
  ghost predicate OnlyTouches(w: Wallets, w': Wallets, user: string, treasury: string, assets: set<string>) {
    forall u, a :: !((u == user || u == treasury) && a in assets) ==> Balance(w', u, a) == Balance(w, u, a)
  }

  // ----- swap -----

  datatype SwapError = SameAsset | UnknownFrom | UnknownTo | OverCap | Insufficient

  /** SwapBroken: one of the four wallet writes raised, or a record written after them did. */
  datatype SwapResult = Swapped(receive: real) | SwapRefused(error: SwapError) | SwapBroken

  /** The wallets when the database takes the first `writes` of the swap's four writes. */
  function AfterSwap(w: Wallets, treasury: string, user: string, from: string, to: string,
                     amount: real, receive: real, writes: nat): Wallets
  {
    var w1 := if writes > 0 then Debit(w, user, from, amount) else w;
    var w2 := if writes > 1 then Credit(w1, user, to, receive) else w1;
    var w3 := if writes > 2 then UpdateTreasury(w2, treasury, from, amount) else w2;
    if writes > 3 then UpdateTreasury(w3, treasury, to, -receive) else w3
  }

  /**
    User and treasury together keep every unit sold exactly when nothing was written or a treasury is
    configured and was credited. They keep every unit bought exactly when the user was not credited,
    or the treasury was debited and has a wallet to pay from. Otherwise the sold asset vanishes, or
    the bought one appears from nowhere.
  */
  lemma SwapConservesExactlyWhen(w: Wallets, treasury: string, user: string, from: string, to: string,
                                 amount: real, receive: real, writes: nat)
    requires from != to && user != "" && amount > 0.0 && receive >= 0.0
    requires Balance(w, user, from) >= amount
    ensures var w' := AfterSwap(w, treasury, user, from, to, amount, receive, writes);
            && (Together(w', user, treasury, from) == Together(w, user, treasury, from) <==>
                  writes == 0 || (writes >= 3 && treasury != ""))
            && (Together(w', user, treasury, to) == Together(w, user, treasury, to) <==>
                  || writes <= 1 || receive == 0.0
                  || (writes >= 4 && (treasury == user || (treasury != "" && (treasury, to) in w))))
            && OnlyTouches(w, w', user, treasury, {from, to})
  {
  }

  // ----- what an off-ramp depends on -----

  datatype Destination = Card(cardId: Option<string>) | Bank | Crypto | OtherDestination

  /** Untold: the database took the write and raised all the same. */
  datatype Write = NotWritten | WrittenUntold | Written

  /** How far taking the NENO gets: the user's debit and then the treasury's credit. */
  datatype Taking = NothingTaken | UserDebited | BothTakenUntold | BothTaken

  /** Looking the card up and crediting it. */
  datatype CardAnswer = CardThrows | CardMissing | CardFound(credit: Write)

  /**
    What the payout service answers, and how many payouts Stripe has made: a request reported as failed
    can have been accepted, and the service may have tried twice.
  */
  datatype Stripe =
    | StripeUnavailable | StripeThrows(made: nat) | StripeRefuses(made: nat) | StripePays(extra: nat)

  /** The wallet of the request, or else the one looked up for the user. */
  datatype WalletAnswer = WalletThrows | NoWallet | Wallet(address: string)

  /**
    How the token transfer goes: it may be on its way when waiting for its receipt throws, and once it
    is mined the treasury's debit can still throw.
  */
  datatype Transfer = NeverSent | SentThenThrows | Reverted | Mined(booking: Write)

  /** What a payout in stablecoins depends on: the asset asked for, the treasury's stock, the transfer. */
  datatype StableWorld = StableWorld(stockUnknown: bool, preferred: string, usdt: real, usdc: real, transfer: Transfer)

  /** Tokens that left count as sent only if their booking, the treasury's debit, was written. */
  datatype Stable = StableThrows | StableStays | StableLeaves(asset: string, amount: real, booking: Write)

  /** How far the two writes of a refund get: the user's credit and then the treasury's debit. */
  datatype RefundAnswer = NoneRefunded | UserRefunded | BothRefundedUntold | BothRefunded

  /** Everything outside that an off-ramp depends on; `booking` is the treasury's debit for a euro payout. */
  datatype World = World(
    rateOk: bool, capOk: bool, bid: real, taking: Taking,
    card: CardAnswer, stripe: Stripe, wallet: WalletAnswer, stable: StableWorld,
    booking: Write, refund: RefundAnswer, recordsOk: bool)

  function StableAmount(eur: real): real {
    Round6(eur * 1.087)
  }

  /** The stablecoin the treasury can pay in: the one asked for, or else the other. */
  function ChooseStable(t: StableWorld, amount: real): Option<string> {
    var usdcFirst := t.preferred == "USDC";
    if (if usdcFirst then t.usdc else t.usdt) >= amount then Some(if usdcFirst then "USDC" else "USDT")
    else if (if usdcFirst then t.usdt else t.usdc) >= amount then Some(if usdcFirst then "USDT" else "USDC")
    else None
  }

  function StableOutcome(eur: real, t: StableWorld): (outcome: Stable)
    ensures outcome.StableLeaves? ==> outcome.asset in {"USDT", "USDC"}
  {
    var chosen := ChooseStable(t, StableAmount(eur));
    if t.stockUnknown then StableThrows
    else if chosen.None? || t.transfer == NeverSent || t.transfer == Reverted then StableStays
    else StableLeaves(chosen.value, StableAmount(eur),
                      if t.transfer.Mined? then t.transfer.booking else NotWritten)
  }

  predicate CountsAsSent(s: Stable) {
    s.StableLeaves? && s.booking.Written?
  }

  datatype Amounts = Amounts(gross: real, fee: real, net: real)

  function OfframpAmounts(neno: real, bid: real): Amounts {
    var gross := Round2(neno * bid);
    var fee := Round2(gross * PLATFORM_FEE);
    Amounts(gross, fee, Round2(gross - fee))
  }

  function Net(neno: real, e: World): real {
    OfframpAmounts(neno, e.bid).net
  }

  function BankAmount(net: real): real {
    var withdrawalFee := if Round2(net * 0.001) > 0.5 then Round2(net * 0.001) else 0.5;
    Round2(net - withdrawalFee)
  }

  // ----- the courses an off-ramp can take -----

  /** `bank` counts the payouts Stripe has made for the off-ramp, whatever it reported. */
  datatype Course =
    | Refused                   // nothing was moved
    | Unreceived                // the user was debited and the treasury was not credited
    | Kept                      // the NENO was taken and an error is answered
    | KeptQuietly(bank: nat)    // the NENO was taken, no payout is known of, and the off-ramp goes on
    | CardPaid(booking: Write)
    | BankPaid(booking: Write, bank: nat)
    | StablePaid(sent: Stable, bank: nat)
    | Refunding(refund: RefundAnswer, sent: Stable, quiet: bool, bank: nat)  // quiet: exceptions are caught

  function CourseOf(balance: real, neno: real, d: Destination, e: World): Course {
    if !e.rateOk || !e.capOk || balance < neno || e.taking.NothingTaken? then Refused
    else if e.taking.UserDebited? then Unreceived
    else if e.taking.BothTakenUntold? then Kept
    else match d
      case Card(id) =>
        if id.None? || e.card.CardThrows? || e.card.CardMissing? || e.card == CardFound(NotWritten) then Kept
        else CardPaid(if e.card.credit.Written? then e.booking else NotWritten)
      case Bank =>
        (match e.stripe
         case StripeThrows(made) => KeptQuietly(made)
         case StripePays(extra) => BankPaid(e.booking, 1 + extra)
         case StripeRefuses(made) =>
           if e.wallet.Wallet? then StableCourse(Net(neno, e), e, true, made) else KeptQuietly(made)
         case StripeUnavailable =>
           if e.wallet.Wallet? then StableCourse(Net(neno, e), e, true, 0)
           else if e.wallet.WalletThrows? then KeptQuietly(0) else Kept)
      case Crypto => if e.wallet.Wallet? then StableCourse(Net(neno, e), e, false, 0) else Kept
      case OtherDestination => Kept
  }

  function StableCourse(net: real, e: World, quiet: bool, bank: nat): Course {
    var sent := StableOutcome(net, e.stable);
    if sent.StableThrows? then if quiet then KeptQuietly(bank) else Kept
    else if CountsAsSent(sent) then StablePaid(sent, bank)
    else Refunding(e.refund, sent, quiet, bank)
  }

  /** The status reached before the records are written; None is an error. */
  function StatusBefore(c: Course): Option<string> {
    match c
    case Refused | Unreceived | Kept => None
    case KeptQuietly(_) | StablePaid(_, _) => Some("completed")
    case CardPaid(booking) => if booking.Written? then Some("completed") else None
    case BankPaid(booking, _) => Some(if booking.Written? then "pending_settlement" else "completed")
    case Refunding(refund, _, quiet, _) => if refund.BothRefunded? || !quiet then None else Some("completed")
  }

  /** The status answered: an error also if a record could not be written. */
  function StatusOf(c: Course, e: World): Option<string> {
    if e.recordsOk then StatusBefore(c) else None
  }

  /** How many times the user has been paid. */
  function Payments(c: Course): nat {
    match c
    case Refused | Unreceived | Kept => 0
    case CardPaid(_) => 1
    case KeptQuietly(bank) => bank
    case BankPaid(_, bank) => bank
    case StablePaid(_, bank) => 1 + bank
    case Refunding(_, sent, _, bank) => if sent.StableLeaves? then 1 + bank else bank
  }

  /** The user has the NENO in the end. */
  predicate GivesBack(c: Course) {
    c.Refused? || (c.Refunding? && !c.refund.NoneRefunded?)
  }

  /** And so has the treasury. */
  predicate RefundedWhole(c: Course) {
    c.Refunding? && (c.refund.BothRefundedUntold? || c.refund.BothRefunded?)
  }

  function Taken(w: Wallets, treasury: string, user: string, neno: real): Wallets {
    UpdateTreasury(Debit(w, user, "NENO", neno), treasury, "NENO", neno)
  }

  function Refunded(w: Wallets, treasury: string, user: string, neno: real): Wallets {
    UpdateTreasury(Credit(w, user, "NENO", neno), treasury, "NENO", -neno)
  }

  /** Booking a payout: the treasury is debited if the database takes the write. */
  function Booked(w: Wallets, treasury: string, asset: string, amount: real, booking: Write): Wallets {
    if booking.NotWritten? then w else UpdateTreasury(w, treasury, asset, -amount)
  }

  /** The treasury's debit of a transfer skips the sign that UpdateTreasury looks at. */
  function AfterSend(w: Wallets, treasury: string, sent: Stable): Wallets {
    if !sent.StableLeaves? || sent.booking.NotWritten? || treasury == "" || sent.amount == 0.0 then w
    else Debit(w, treasury, sent.asset, sent.amount)
  }

  function AfterRefund(w: Wallets, treasury: string, user: string, neno: real, refund: RefundAnswer): Wallets {
    match refund
    case NoneRefunded => w
    case UserRefunded => Credit(w, user, "NENO", neno)
    case BothRefundedUntold | BothRefunded => Refunded(w, treasury, user, neno)
  }

  function AfterCourse(w: Wallets, treasury: string, user: string, neno: real, net: real, c: Course): Wallets {
    var taken := Taken(w, treasury, user, neno);
    match c
    case Refused => w
    case Unreceived => Debit(w, user, "NENO", neno)
    case Kept | KeptQuietly(_) => taken
    case CardPaid(booking) => Booked(taken, treasury, "EUR", net, booking)
    case BankPaid(booking, _) => Booked(taken, treasury, "EUR", BankAmount(net), booking)
    case StablePaid(sent, _) => AfterSend(taken, treasury, sent)
    case Refunding(refund, sent, _, _) =>
      AfterRefund(AfterSend(taken, treasury, sent), treasury, user, neno, refund)
  }

  function AfterOfframp(w: Wallets, treasury: string, user: string, neno: real, d: Destination, e: World): Wallets {
    AfterCourse(w, treasury, user, neno, Net(neno, e), CourseOf(Balance(w, user, "NENO"), neno, d, e))
  }

  function AfterOfframpCards(cards: map<string, real>, balance: real, neno: real, d: Destination, e: World)
    : map<string, real>
  {
    if CourseOf(balance, neno, d, e).CardPaid? then CreditCard(cards, d.cardId.value, Net(neno, e)) else cards
  }

  function CreditCard(cards: map<string, real>, id: string, amount: real): map<string, real> {
    cards[id := (if id in cards then cards[id] else 0.0) + amount]
  }

  // ----- the handlers -----

  class NenoExchange {
    const treasury: string
    var wallets: Wallets
    var cards: map<string, real>

    constructor (treasuryUid: string, initial: Wallets, cardBalances: map<string, real>)
      ensures treasury == treasuryUid && wallets == initial && cards == cardBalances
    {
      treasury := treasuryUid;
      wallets, cards := initial, cardBalances;
    }

    method SwapTokens(user: string, from: string, to: string, amount: real, fromPrice: Option<real>,
                      toPrice: Option<real>, bid: real, ask: real, capOk: bool, writes: nat)
      returns (result: SwapResult)
      requires amount > 0.0 && ask > 0.0 && (toPrice.Some? ==> toPrice.value > 0.0)
      modifies this`wallets
      ensures var accepted := from != to && fromPrice.Some? && toPrice.Some? && capOk
                              && Balance(old(wallets), user, from) >= amount;
              && (result.SwapRefused? <==> !accepted)
              && (result.SwapBroken? <==> accepted && writes < 5)
      ensures result.SwapRefused? ==> wallets == old(wallets)
      ensures !result.SwapRefused? ==>
                var receive := SwapQuote(amount, if from == "NENO" then bid else fromPrice.value,
                                         if to == "NENO" then ask else toPrice.value).receive;
                && (result.Swapped? ==> result.receive == receive)
                && wallets == AfterSwap(old(wallets), treasury, user, from, to, amount, receive, writes)
      ensures var t := Swap(user, from, to, amount, fromPrice, toPrice, bid, ask, capOk, writes);
              WellFormed(t) ==> wallets == AfterTrade(old(wallets), treasury, t)
    {
      hide Balance, Debit, Credit, UpdateTreasury;
      if from == to {
        return SwapRefused(SameAsset);
      }
      if fromPrice.None? {
        return SwapRefused(UnknownFrom);
      }
      if toPrice.None? {
        return SwapRefused(UnknownTo);
      }
      var sell, buy := fromPrice.value, toPrice.value;
      if from == "NENO" {
        sell := bid;
      }
      if to == "NENO" {
        buy := ask;
      }
      var quote := SwapQuote(amount, sell, buy);
      if !capOk {
        return SwapRefused(OverCap);
      }
      if Balance(wallets, user, from) < amount {
        return SwapRefused(Insufficient);
      }
      if writes < 1 {
        return SwapBroken;
      }
      wallets := Debit(wallets, user, from, amount);
      if writes < 2 {
        return SwapBroken;
      }
      wallets := Credit(wallets, user, to, quote.receive);
      if writes < 3 {
        return SwapBroken;
      }
      wallets := UpdateTreasury(wallets, treasury, from, amount);
      if writes < 4 {
        return SwapBroken;
      }
      wallets := UpdateTreasury(wallets, treasury, to, -quote.receive);
      if writes < 5 {
        return SwapBroken;
      }
      return Swapped(quote.receive);
    }

    /**
      Sending stablecoins for a payout: the treasury is debited only once the transfer is mined, and an
      exception while waiting for that, or in the debit, counts as a failure although the tokens left.
    */
    method ExecuteStablecoinOfframp(eur: real, t: StableWorld) returns (outcome: Stable)
      modifies this`wallets
      ensures outcome == StableOutcome(eur, t)
      ensures wallets == AfterSend(old(wallets), treasury, outcome)
    {
      hide Round6;
      var stable := t.preferred;
      if stable != "USDT" && stable != "USDC" {
        stable := "USDT";
      }
      var amount := StableAmount(eur);
      if t.stockUnknown {
        return StableThrows;
      }
      if (if stable == "USDT" then t.usdt else t.usdc) < amount {
        var alt := if stable == "USDT" then "USDC" else "USDT";
        if (if alt == "USDT" then t.usdt else t.usdc) >= amount {
          stable := alt;
        } else {
          return StableStays;
        }
      }
      match t.transfer {
        case NeverSent =>
          return StableStays;
        case SentThenThrows =>
          return StableLeaves(stable, amount, NotWritten);
        case Reverted =>
          return StableStays;
        case Mined(booking) =>
          if !booking.NotWritten? && treasury != "" && amount != 0.0 {
            wallets := Debit(wallets, treasury, stable, amount);
          }
          return StableLeaves(stable, amount, booking);
      }
    }

    /** The two writes of a refund, as far as they get. */
    method Refund(user: string, neno: real, answer: RefundAnswer)
      requires neno > 0.0 && user != ""
      modifies this`wallets
      ensures wallets == AfterRefund(old(wallets), treasury, user, neno, answer)
      ensures user != treasury && !answer.NoneRefunded? ==>
                Balance(wallets, user, "NENO") == Balance(old(wallets), user, "NENO") + neno
      ensures user != treasury ==>
                var pays := (answer.BothRefundedUntold? || answer.BothRefunded?)
                            && treasury != "" && (treasury, "NENO") in old(wallets);
                Balance(wallets, treasury, "NENO") ==
                Balance(old(wallets), treasury, "NENO") - if pays then neno else 0.0
      ensures OnlyTouches(old(wallets), wallets, user, treasury, {"NENO"})
    {
      if answer.NoneRefunded? {
        return;
      }
      wallets := Credit(wallets, user, "NENO", neno);
      if answer.UserRefunded? {
        return;
      }
      wallets := UpdateTreasury(wallets, treasury, "NENO", -neno);
    }

    /** The status answered; None is an error. */
    method OfframpNeno(user: string, neno: real, destination: Destination, e: World) returns (status: Option<string>)
      requires neno > 0.0 && user != ""
      modifies this
      ensures var course := CourseOf(Balance(old(wallets), user, "NENO"), neno, destination, e);
              && status == StatusOf(course, e)
              && wallets == AfterCourse(old(wallets), treasury, user, neno, Net(neno, e), course)
              && cards == AfterOfframpCards(old(cards), Balance(old(wallets), user, "NENO"), neno, destination, e)
    {
      hide Balance, Debit, Credit, UpdateTreasury, StableOutcome, BankAmount, Round2, AfterRefund, AfterSend;
      if !e.rateOk {
        return None;
      }
      var net := OfframpAmounts(neno, e.bid).net;
      if !e.capOk {
        return None;
      }
      if Balance(wallets, user, "NENO") < neno {
        return None;
      }
      if e.taking.NothingTaken? {
        return None;
      }
      wallets := Debit(wallets, user, "NENO", neno);
      if e.taking.UserDebited? {
        return None;
      }
      wallets := UpdateTreasury(wallets, treasury, "NENO", neno);
      if e.taking.BothTakenUntold? {
        return None;
      }
      match destination {
        case Card(cardId) =>
          if cardId.None? {
            return None;
          }
          if e.card.CardThrows? || e.card.CardMissing? || e.card.credit.NotWritten? {
            return None;
          }
          cards := CreditCard(cards, cardId.value, net);
          if e.card.credit.WrittenUntold? {
            return None;
          }
          if !e.booking.NotWritten? {
            wallets := UpdateTreasury(wallets, treasury, "EUR", -net);
          }
          if !e.booking.Written? {
            return None;
          }
          status := Some("completed");
        case Bank =>
          match e.stripe {
            case StripeThrows(_) =>
              status := Some("completed");
            case StripePays(_) =>
              net := BankAmount(net);
              status := Some("completed");
              if !e.booking.NotWritten? {
                wallets := UpdateTreasury(wallets, treasury, "EUR", -net);
              }
              if e.booking.Written? {
                status := Some("pending_settlement");
              }
            case StripeRefuses(made) =>
              status := Some("completed");
              if e.wallet.Wallet? {
                status := PayInStablecoins(user, neno, net, e, true, made);
              }
            case StripeUnavailable =>
              if e.wallet.NoWallet? {
                return None;
              }
              status := Some("completed");
              if e.wallet.Wallet? {
                status := PayInStablecoins(user, neno, net, e, true, 0);
              }
          }
        case Crypto =>
          if !e.wallet.Wallet? {
            return None;
          }
          status := PayInStablecoins(user, neno, net, e, false, 0);
        case OtherDestination =>
          return None;
      }
      if !e.recordsOk {
        return None;
      }
    }

    /** The transfer and the refund after a failed one; `quiet` is the bank branch, which catches exceptions. */
    method PayInStablecoins(user: string, neno: real, net: real, e: World, quiet: bool, ghost bank: nat)
      returns (status: Option<string>)
      requires neno > 0.0 && user != ""
      modifies this`wallets
      ensures status == StatusBefore(StableCourse(net, e, quiet, bank))
      ensures wallets ==
              var sent := StableOutcome(net, e.stable);
              if sent.StableThrows? then old(wallets)
              else if CountsAsSent(sent) then AfterSend(old(wallets), treasury, sent)
              else AfterRefund(AfterSend(old(wallets), treasury, sent), treasury, user, neno, e.refund)
    {
      hide StableOutcome, AfterRefund, Balance, OnlyTouches;
      var outcome := ExecuteStablecoinOfframp(net, e.stable);
      if outcome.StableThrows? {
        return if quiet then Some("completed") else None;
      }
      if CountsAsSent(outcome) {
        return Some("completed");
      }
      Refund(user, neno, e.refund);
      if e.refund.BothRefunded? || !quiet {
        return None;
      }
      return Some("completed");
    }
  }

  // ----- what an off-ramp keeps -----

  /** The same NENO wallets with the same balances. */
  ghost predicate SameNeno(w: Wallets, w': Wallets) {
    forall u: string :: ((u, "NENO") in w' <==> (u, "NENO") in w) && Balance(w', u, "NENO") == Balance(w, u, "NENO")
  }

  /** Booking and sending a payout leave every NENO wallet alone. */
  lemma PayoutKeepsNeno(w: Wallets, treasury: string, amount: real, booking: Write, sent: Stable)
    requires sent.StableLeaves? ==> sent.asset != "NENO"
    ensures SameNeno(w, Booked(w, treasury, "EUR", amount, booking))
    ensures SameNeno(w, AfterSend(w, treasury, sent))
  {
  }

  /** Wherever an off-ramp pays from, the wallets `taken` that it starts to pay with keep their NENO. */
  lemma OfframpPayoutKeepsNeno(taken: Wallets, treasury: string, balance: real, neno: real, d: Destination, e: World)
    ensures var c := CourseOf(balance, neno, d, e);
            && (c.CardPaid? ==> SameNeno(taken, Booked(taken, treasury, "EUR", Net(neno, e), c.booking)))
            && (c.BankPaid? ==> SameNeno(taken, Booked(taken, treasury, "EUR", BankAmount(Net(neno, e)), c.booking)))
            && (c.StablePaid? || c.Refunding? ==> SameNeno(taken, AfterSend(taken, treasury, c.sent)))
  {
    hide StableOutcome, Net, BankAmount, Booked, AfterSend, SameNeno;
    var c := CourseOf(balance, neno, d, e);
    if c.CardPaid? {
      PayoutKeepsNeno(taken, treasury, Net(neno, e), c.booking, StableStays);
    } else if c.BankPaid? {
      PayoutKeepsNeno(taken, treasury, BankAmount(Net(neno, e)), c.booking, StableStays);
    } else if c.StablePaid? || c.Refunding? {
      PayoutKeepsNeno(taken, treasury, 0.0, NotWritten, c.sent);
    }
  }

  lemma OfframpTouches(w: Wallets, treasury: string, user: string, neno: real, d: Destination, e: World)
    requires neno > 0.0 && user != ""
    ensures OnlyTouches(w, AfterOfframp(w, treasury, user, neno, d, e), user, treasury, {"NENO", "EUR", "USDT", "USDC"})
  {
    hide StableOutcome, Net, BankAmount;
  }

  /**
    User and treasury together keep every NENO exactly when: nothing was moved; or the refund was
    written whole; or only the user was refunded, of a treasury that never got the NENO; or the NENO
    stays with a treasury that was credited. No other user and no asset but NENO, EUR and the two
    stablecoins is touched.
  */
  lemma OfframpConservesNeno(w: Wallets, treasury: string, user: string, neno: real, d: Destination, e: World)
    requires neno > 0.0 && user != ""
    ensures var w' := AfterOfframp(w, treasury, user, neno, d, e);
            var c := CourseOf(Balance(w, user, "NENO"), neno, d, e);
            && (Together(w', user, treasury, "NENO") == Together(w, user, treasury, "NENO") <==>
                  || c.Refused?
                  || RefundedWhole(c)
                  || (c.Refunding? && c.refund.UserRefunded? && treasury == "")
                  || (!c.Unreceived? && !GivesBack(c) && treasury != ""))
            && OnlyTouches(w, w', user, treasury, {"NENO", "EUR", "USDT", "USDC"})
  {
    hide StableOutcome, Net, BankAmount, OnlyTouches, Booked, AfterSend;
    OfframpTouches(w, treasury, user, neno, d, e);
    OfframpPayoutKeepsNeno(Taken(w, treasury, user, neno), treasury, Balance(w, user, "NENO"), neno, d, e);
  }

  /**
    The user's NENO is restored exactly by a refusal or a refund that reached the user, the treasury's
    exactly by a course that never credited it or a refund written whole; nothing in between.
  */
  lemma RefundRestoresBoth(w: Wallets, treasury: string, user: string, neno: real, d: Destination, e: World)
    requires neno > 0.0 && user != "" && user != treasury
    ensures var w' := AfterOfframp(w, treasury, user, neno, d, e);
            var c := CourseOf(Balance(w, user, "NENO"), neno, d, e);
            && Balance(w', user, "NENO") == Balance(w, user, "NENO") - (if GivesBack(c) then 0.0 else neno)
            && (treasury != "" ==>
                  (Balance(w', treasury, "NENO") == Balance(w, treasury, "NENO") <==>
                   c.Refused? || c.Unreceived? || RefundedWhole(c)))
  {
    hide StableOutcome, Net, BankAmount, Booked, AfterSend;
    OfframpPayoutKeepsNeno(Taken(w, treasury, user, neno), treasury, Balance(w, user, "NENO"), neno, d, e);
  }

  /** A refund written whole undoes taking the NENO, for every holder and asset. */
  lemma RefundUndoesTaking(w: Wallets, treasury: string, user: string, neno: real, u: string, asset: string)
    requires neno > 0.0 && user != "" && Balance(w, user, "NENO") >= neno
    ensures Balance(Refunded(Taken(w, treasury, user, neno), treasury, user, neno), u, asset) == Balance(w, u, asset)
  {
  }

  predicate EnoughStock(neno: real, e: World) {
    e.stable.usdt >= StableAmount(Net(neno, e)) || e.stable.usdc >= StableAmount(Net(neno, e))
  }

  /** The transfer is tried: its own destination, or the bank's fallback. */
  predicate TriesStable(d: Destination, e: World) {
    e.wallet.Wallet? && (d.Crypto? || (d.Bank? && (e.stripe.StripeRefuses? || e.stripe.StripeUnavailable?)))
  }

  /** The transfer is tried and counts as failed. */
  predicate TransferFails(neno: real, d: Destination, e: World) {
    TriesStable(d, e) && !e.stable.stockUnknown && (!EnoughStock(neno, e) || e.stable.transfer != Mined(Written))
  }

  /** Past the refusals: the user's NENO has been debited. */
  predicate Debited(balance: real, neno: real, e: World) {
    e.rateOk && e.capOk && balance >= neno && !e.taking.NothingTaken?
  }

  /** How many payouts Stripe has made for the off-ramp. */
  function BankMade(d: Destination, e: World): nat {
    if !d.Bank? then 0 else
    match e.stripe
    case StripeUnavailable => 0
    case StripeThrows(made) => made
    case StripeRefuses(made) => made
    case StripePays(extra) => 1 + extra
  }

  /** The tokens leave, but the payout is told that the transfer failed. */
  predicate LeavesUntold(t: Transfer) {
    t == SentThenThrows || (t.Mined? && !t.booking.Written?)
  }

  /** The user's NENO is given back after a failed transfer. */
  predicate Returned(neno: real, d: Destination, e: World) {
    TransferFails(neno, d, e) && !e.refund.NoneRefunded?
  }

  /**
    An off-ramp can take the NENO for good and answer with an error: exactly when, past the refusals,
    the treasury's credit throws, or the destination is unknown, or the card is not found, not credited
    or not booked, or no wallet is found for the transfer that was all there was to try, or in a crypto
    payout the wallet lookup, the stock lookup, or the refund of a failed transfer throws, or a record
    at the end cannot be written.
  */
  lemma ErrorKeepsNenoExactlyWhen(balance: real, neno: real, d: Destination, e: World)
    requires Debited(balance, neno, e)
    ensures var c := CourseOf(balance, neno, d, e);
            StatusOf(c, e).None? && !GivesBack(c) <==>
              || !e.taking.BothTaken?
              || d.OtherDestination?
              || (d.Card? && (d.cardId.None? || e.card != CardFound(Written) || !e.booking.Written?))
              || (d.Crypto? && (|| !e.wallet.Wallet? || e.stable.stockUnknown
                                || (TransferFails(neno, d, e) && e.refund.NoneRefunded?)))
              || (d.Bank? && e.stripe.StripeUnavailable? && e.wallet.NoWallet?)
              || (!e.recordsOk && !Returned(neno, d, e))
  {
    hide Net, StableAmount;
  }

  /**
    An error that leaves the user with the NENO is a refusal, or follows a refund: exactly in a crypto
    payout, where the refund is answered with an error, in a bank off-ramp whose refund was written whole
    and said so, or if a record cannot be written either.
  */
  lemma ErrorGivesBackExactlyWhen(balance: real, neno: real, d: Destination, e: World)
    ensures var c := CourseOf(balance, neno, d, e);
            StatusOf(c, e).None? && GivesBack(c) <==>
              || !Debited(balance, neno, e)
              || (e.taking.BothTaken? && Returned(neno, d, e) && (d.Crypto? || e.refund.BothRefunded? || !e.recordsOk))
  {
    hide Net, StableAmount;
  }

  /** "pending_settlement" is answered exactly for a bank payout that Stripe confirmed and the treasury booked. */
  lemma PendingExactlyWhenBooked(balance: real, neno: real, d: Destination, e: World)
    ensures var status := StatusOf(CourseOf(balance, neno, d, e), e);
            && (status == Some("pending_settlement") <==>
                  && Debited(balance, neno, e) && e.taking.BothTaken? && e.recordsOk
                  && d.Bank? && e.stripe.StripePays? && e.booking.Written?)
            && status in {None, Some("completed"), Some("pending_settlement")}
  {
    hide Net, StableAmount;
    assert "completed"[0] == 'c' && "pending_settlement"[0] == 'p';
  }

  /**
    Where the NENO is in the end, by what happened: the user is without it exactly when it was taken and
    not given back, and the treasury has it exactly when its credit was taken and the refund's debit was
    not.
  */
  lemma WhereTheNenoIs(w: Wallets, treasury: string, user: string, neno: real, d: Destination, e: World)
    requires neno > 0.0 && user != "" && treasury != "" && user != treasury
    ensures var balance := Balance(w, user, "NENO");
            var w' := AfterOfframp(w, treasury, user, neno, d, e);
            var returned := e.taking.BothTaken? && Returned(neno, d, e);
            && Balance(w', user, "NENO") ==
               balance - (if Debited(balance, neno, e) && !returned then neno else 0.0)
            && Balance(w', treasury, "NENO") ==
               Balance(w, treasury, "NENO")
               + (if && Debited(balance, neno, e) && e.taking in {BothTakenUntold, BothTaken}
                     && !(returned && e.refund in {BothRefundedUntold, BothRefunded}) then neno else 0.0)
  {
    hide StableAmount, Net, BankAmount, Booked, AfterSend;
    OfframpPayoutKeepsNeno(Taken(w, treasury, user, neno), treasury, Balance(w, user, "NENO"), neno, d, e);
  }

  /**
    It can also answer "completed" with nothing paid out: exactly for a bank off-ramp, of which Stripe
    made no payout and whose records are written, that threw, or was refused with no wallet found, or
    whose fallback threw, be it the wallet lookup, the stock lookup or the refund of a transfer that
    never left.
  */
  lemma CompletedUnpaidExactlyWhen(balance: real, neno: real, d: Destination, e: World)
    requires Debited(balance, neno, e) && e.taking.BothTaken?
    ensures var c := CourseOf(balance, neno, d, e);
            StatusOf(c, e) == Some("completed") && Payments(c) == 0 <==>
              d.Bank? && BankMade(d, e) == 0 && e.recordsOk
              && (|| e.stripe.StripeThrows?
                  || (e.stripe.StripeRefuses? && !e.wallet.Wallet?)
                  || (e.stripe.StripeUnavailable? && e.wallet.WalletThrows?)
                  || (TriesStable(d, e) && e.stable.stockUnknown)
                  || (TransferFails(neno, d, e) && !e.refund.BothRefunded?
                      && !(EnoughStock(neno, e) && LeavesUntold(e.stable.transfer))))
  {
    hide Net, StableAmount;
  }

  /**
    The refund can come on top of a payout: the NENO is given back although the user was paid, exactly
    when the transfer counts as failed and the refund reaches the user, and Stripe had made a payout
    that it reported as failed, or an exception struck after the tokens left, in their booking at the
    latest.
  */
  lemma RefundedAndPaidExactlyWhen(balance: real, neno: real, d: Destination, e: World)
    requires Debited(balance, neno, e) && e.taking.BothTaken?
    ensures var c := CourseOf(balance, neno, d, e);
            GivesBack(c) && Payments(c) > 0 <==>
              && Returned(neno, d, e)
              && (BankMade(d, e) > 0 || (EnoughStock(neno, e) && LeavesUntold(e.stable.transfer)))
  {
    hide Net, StableAmount;
  }

  /**
    And the user can be paid twice: exactly when Stripe made two payouts, or made one that it reported
    as failed and the tokens of the fallback leave as well, whatever is said of them.
  */
  lemma PaidTwiceExactlyWhen(balance: real, neno: real, d: Destination, e: World)
    requires Debited(balance, neno, e) && e.taking.BothTaken?
    ensures Payments(CourseOf(balance, neno, d, e)) >= 2 <==>
              || BankMade(d, e) >= 2
              || (&& BankMade(d, e) == 1 && TriesStable(d, e) && !e.stable.stockUnknown && EnoughStock(neno, e)
                  && (e.stable.transfer == SentThenThrows || e.stable.transfer.Mined?))
  {
    hide Net, StableAmount;
  }

  // ----- what an off-ramp pays -----

  predicate Within(x: real, y: real, tolerance: real) {
    y - tolerance <= x <= y + tolerance
  }

  /** What is left of the sale at the bid once the platform has kept its 0.3%. */
  function Proceeds(neno: real, bid: real): real {
    0.997 * (neno * bid)
  }

  /** Rounding the sale, the fee and the difference to cents costs at most a cent. */
  lemma NetWithinACent(neno: real, e: World)
    requires neno > 0.0 && e.bid > 0.0
    ensures Within(Net(neno, e), Proceeds(neno, e.bid), 0.009_985) && Net(neno, e) >= 0.0
  {
    hide Round2, Within;
    assert neno * e.bid > 0.0;
    CentsKept(neno * e.bid);
  }

  lemma CentsKept(sale: real)
    requires sale > 0.0
    ensures var gross := Round2(sale);
            var net := Round2(gross - Round2(gross * PLATFORM_FEE));
            Within(net, 0.997 * sale, 0.009_985) && net >= 0.0
  {
    hide Nearest;
    var gross := Round2(sale);
    var fee := Round2(gross * PLATFORM_FEE);
    var cents, feeCents := Nearest(sale * 100.0), Nearest(gross * PLATFORM_FEE * 100.0);
    RoundingError(sale);
    RoundingError(gross * PLATFORM_FEE);
    RoundMonotone(0.0, sale);
    RoundZero();
    RoundMonotone(gross * PLATFORM_FEE, gross);
    RoundFixed(gross, cents);
    RoundFixed(gross - fee, cents - feeCents);
  }

  lemma NetIsCents(neno: real, e: World) returns (cents: int)
    ensures Net(neno, e) == cents as real / 100.0
  {
    hide Nearest;
    var amounts := OfframpAmounts(neno, e.bid);
    cents := Nearest((amounts.gross - amounts.fee) * 100.0);
    assert amounts.net == Round2(amounts.gross - amounts.fee);
  }

  lemma BankWithin(net: real, cents: int, sale: real)
    requires net == cents as real / 100.0 && Within(net, sale, 0.009_985)
    ensures Within(BankAmount(net), sale - (if 0.001 * sale > 0.5 then 0.001 * sale else 0.5), 0.015)
  {
    hide Nearest;
    var feeCents := Nearest(net * 0.001 * 100.0);
    RoundingError(net * 0.001);
    if Round2(net * 0.001) > 0.5 {
      RoundFixed(net - Round2(net * 0.001), cents - feeCents);
    } else {
      RoundFixed(net - 0.5, cents - 50);
    }
  }

  /**
    A card off-ramp raises the card exactly when the NENO was taken, the card is found and its credit
    reaches the database, by 99.7% of the sale at the bid, to the cent, and leaves every other card
    alone. The treasury's euros fall by exactly the same if the booking reaches the database too, as it
    does whenever the off-ramp is answered as completed.
  */
  lemma CardIsPaid(w: Wallets, cards: map<string, real>, treasury: string, user: string, neno: real,
                   id: string, e: World)
    requires neno > 0.0 && user != "" && e.bid > 0.0 && treasury != "" && (treasury, "EUR") in w
    ensures var balance := Balance(w, user, "NENO");
            var w' := AfterOfframp(w, treasury, user, neno, Card(Some(id)), e);
            var cards' := AfterOfframpCards(cards, balance, neno, Card(Some(id)), e);
            var taken := Debited(balance, neno, e) && e.taking.BothTaken?;
            var credited := taken && e.card in {CardFound(WrittenUntold), CardFound(Written)};
            var booked := taken && e.card == CardFound(Written) && e.booking in {WrittenUntold, Written};
            var paid := if credited then cards'[id] - (if id in cards then cards[id] else 0.0) else 0.0;
            && (credited ==> Within(paid, Proceeds(neno, e.bid), 0.01) && cards' - {id} == cards - {id})
            && (!credited ==> cards' == cards)
            && Balance(w', treasury, "EUR") == Balance(w, treasury, "EUR") - (if booked then paid else 0.0)
            && (StatusOf(CourseOf(balance, neno, Card(Some(id)), e), e) == Some("completed") <==>
                  credited && booked && e.booking.Written? && e.recordsOk)
  {
    hide Net;
    NetWithinACent(neno, e);
  }

  /**
    A booked bank payout takes the same from the treasury's euros, less the withdrawal fee, which is 0.1%
    and at least 50 cents, to a cent and a half; no other bank off-ramp touches the treasury's euros.
  */
  lemma BankIsPaid(w: Wallets, treasury: string, user: string, neno: real, e: World)
    requires neno > 0.0 && user != "" && e.bid > 0.0 && treasury != "" && (treasury, "EUR") in w
    ensures var c := CourseOf(Balance(w, user, "NENO"), neno, Bank, e);
            var paid := Balance(w, treasury, "EUR")
                        - Balance(AfterOfframp(w, treasury, user, neno, Bank, e), treasury, "EUR");
            var sale := Proceeds(neno, e.bid);
            if c.BankPaid? && !c.booking.NotWritten?
            then Within(paid, sale - (if 0.001 * sale > 0.5 then 0.001 * sale else 0.5), 0.015)
            else paid == 0.0
  {
    hide Net, BankAmount;
    NetWithinACent(neno, e);
    var cents := NetIsCents(neno, e);
    BankWithin(Net(neno, e), cents, Proceeds(neno, e.bid));
  }

  /** A cent would be too little: three amounts are rounded one after the other, and here all go the same way. */
  lemma BankIsPaidOffByMoreThanACent(e: World)
    requires e.bid == 1_178.554
    ensures var sale := Proceeds(1.0, e.bid);
            0.001 * sale > 0.5 && !Within(BankAmount(Net(1.0, e)), sale - 0.001 * sale, 0.01)
  {
    assert Round2(1.0 * e.bid) == 1_178.55;
    assert Round2(1_178.55 * PLATFORM_FEE) == 3.54;
    assert Net(1.0, e) == 1_175.01;
    assert Round2(1_175.01 * 0.001) == 1.18;
    assert BankAmount(1_175.01) == 1_173.83;
  }

  /** The stablecoins sent are worth 1.087 each euro of the same proceeds, and so is what the treasury books. */
  lemma StableIsPaid(w: Wallets, treasury: string, user: string, neno: real, d: Destination, e: World)
    requires neno > 0.0 && user != "" && e.bid > 0.0 && treasury != ""
    ensures var c := CourseOf(Balance(w, user, "NENO"), neno, d, e);
            (c.StablePaid? || c.Refunding?) && c.sent.StableLeaves? ==>
              && (exists eur :: Within(eur, Proceeds(neno, e.bid), 0.01)
                                && Within(c.sent.amount, 1.087 * eur, 0.000_001))
              && ((treasury, c.sent.asset) in w ==>
                    Balance(AfterOfframp(w, treasury, user, neno, d, e), treasury, c.sent.asset) ==
                    Balance(w, treasury, c.sent.asset)
                    - if e.stable.transfer in {SentThenThrows, Mined(NotWritten)} then 0.0 else c.sent.amount)
  {
    hide Net, BankAmount, Round6;
    NetWithinACent(neno, e);
    assert Within(Net(neno, e), Proceeds(neno, e.bid), 0.01);
    RoundingError6(Net(neno, e) * 1.087);
  }

  /** Stablecoins are sent in the asset asked for whenever the treasury has enough of it, and never in one it lacks. */
  lemma StableChoice(eur: real, t: StableWorld)
    ensures var outcome := StableOutcome(eur, t);
            var usdcFirst := t.preferred == "USDC";
            var first, other := if usdcFirst then t.usdc else t.usdt, if usdcFirst then t.usdt else t.usdc;
            outcome.StableLeaves? ==>
              && (outcome.asset == (if usdcFirst then "USDC" else "USDT") <==> first >= outcome.amount)
              && (outcome.asset == (if usdcFirst then "USDT" else "USDC") ==> other >= outcome.amount)
  {
  }

  // ----- runs of trades by many users -----

  datatype Trade =
    | Swap(user: string, from: string, to: string, amount: real, fromPrice: Option<real>,
           toPrice: Option<real>, bid: real, ask: real, capOk: bool, writes: nat)
    | Offramp(user: string, neno: real, destination: Destination, world: World)

  predicate WellFormed(t: Trade) {
    && t.user != ""
    && match t
       case Swap(_, _, _, amount, fromPrice, toPrice, bid, ask, _, _) =>
         && amount > 0.0 && bid > 0.0 && ask > 0.0
         && (fromPrice.Some? ==> fromPrice.value > 0.0) && (toPrice.Some? ==> toPrice.value > 0.0)
       case Offramp(_, neno, _, _) => neno > 0.0
  }

  /** The wallets after a trade: the contracts of SwapTokens and OfframpNeno in one function. */
  function AfterTrade(w: Wallets, treasury: string, t: Trade): Wallets
    requires WellFormed(t)
  {
    match t
    case Offramp(user, neno, d, e) => AfterOfframp(w, treasury, user, neno, d, e)
    case Swap(user, from, to, amount, fromPrice, toPrice, bid, ask, capOk, writes) =>
      if from != to && fromPrice.Some? && toPrice.Some? && capOk && Balance(w, user, from) >= amount then
        AfterSwap(w, treasury, user, from, to, amount,
                  SwapQuote(amount, if from == "NENO" then bid else fromPrice.value,
                            if to == "NENO" then ask else toPrice.value).receive, writes)
      else w
  }

  function AfterTrades(w: Wallets, treasury: string, ts: seq<Trade>): Wallets
    requires forall t :: t in ts ==> WellFormed(t)
  {
    if ts == [] then w
    else assert ts[|ts| - 1] in ts; AfterTrade(AfterTrades(w, treasury, ts[..|ts| - 1]), treasury, ts[|ts| - 1])
  }

  /** What the listed holders own of an asset together. */
  function Supply(w: Wallets, holders: seq<string>, asset: string): real {
    if holders == [] then 0.0
    else Supply(w, holders[..|holders| - 1], asset) + Balance(w, holders[|holders| - 1], asset)
  }

  function Gain(w: Wallets, w': Wallets, user: string, asset: string): real {
    Balance(w', user, asset) - Balance(w, user, asset)
  }

  lemma {:induction false} SupplyMoves(w: Wallets, w': Wallets, holders: seq<string>,
                                       user: string, treasury: string, asset: string)
    requires Distinct(holders)
    requires forall u :: u != user && u != treasury ==> Balance(w', u, asset) == Balance(w, u, asset)
    ensures Supply(w', holders, asset) == Supply(w, holders, asset)
              + (if user in holders then Gain(w, w', user, asset) else 0.0)
              + (if treasury in holders && treasury != user then Gain(w, w', treasury, asset) else 0.0)
  {
    hide Balance;
    if holders != [] {
      var front, last := holders[..|holders| - 1], holders[|holders| - 1];
      SupplyMoves(w, w', front, user, treasury, asset);
      assert holders == front + [last] && last !in front;
    }
  }

  /** A trade only adds wallets. */
  lemma WalletsStay(w: Wallets, treasury: string, t: Trade)
    requires WellFormed(t)
    ensures w.Keys <= AfterTrade(w, treasury, t).Keys
  {
    hide SwapQuote, Net, BankAmount, StableOutcome;
  }

  /** All four writes of a swap or none are taken, and both NENO writes of a taking and of a refund or neither. */
  predicate Whole(t: Trade) {
    match t
    case Swap(_, _, _, _, _, _, _, _, _, writes) => writes == 0 || writes >= 4
    case Offramp(_, _, _, e) => !e.taking.UserDebited? && !e.refund.UserRefunded?
  }

  /** The treasury has wallets to pay the trade from. */
  predicate Stocked(w: Wallets, treasury: string, t: Trade) {
    if t.Swap? then (treasury, t.to) in w
    else (treasury, "EUR") in w && (treasury, "USDT") in w && (treasury, "USDC") in w
  }

  /** What an off-ramp draws from the treasury for the outside: euros or a stablecoin that were booked. */
  function Drawn(w: Wallets, t: Trade, asset: string): real {
    match t
    case Swap(_, _, _, _, _, _, _, _, _, _) => 0.0
    case Offramp(user, neno, d, e) =>
      match CourseOf(Balance(w, user, "NENO"), neno, d, e)
      case CardPaid(booking) => if !booking.NotWritten? && asset == "EUR" then Net(neno, e) else 0.0
      case BankPaid(booking, _) => if !booking.NotWritten? && asset == "EUR" then BankAmount(Net(neno, e)) else 0.0
      case StablePaid(sent, _) => DrawnBySend(sent, asset)
      case Refunding(_, sent, _, _) => DrawnBySend(sent, asset)
      case Refused | Unreceived | Kept | KeptQuietly(_) => 0.0
  }

  function DrawnBySend(sent: Stable, asset: string): real {
    if sent.StableLeaves? && !sent.booking.NotWritten? && sent.asset == asset then sent.amount else 0.0
  }

  function DrawnInAll(w: Wallets, treasury: string, ts: seq<Trade>, asset: string): real
    requires forall t :: t in ts ==> WellFormed(t)
  {
    if ts == [] then 0.0
    else
      var before := AfterTrades(w, treasury, ts[..|ts| - 1]);
      DrawnInAll(w, treasury, ts[..|ts| - 1], asset) + Drawn(before, ts[|ts| - 1], asset)
  }

  lemma UntouchedTogether(w: Wallets, w': Wallets, user: string, treasury: string, assets: set<string>, asset: string)
    requires OnlyTouches(w, w', user, treasury, assets) && asset !in assets
    ensures Together(w', user, treasury, asset) == Together(w, user, treasury, asset)
  {
    hide Balance;
  }

  lemma SwapConserves(w: Wallets, treasury: string, t: Trade, asset: string)
    requires WellFormed(t) && t.Swap? && Whole(t) && treasury != "" && Stocked(w, treasury, t)
    ensures var w' := AfterTrade(w, treasury, t);
            && Together(w', t.user, treasury, asset) == Together(w, t.user, treasury, asset)
            && forall u :: u != t.user && u != treasury ==> Balance(w', u, asset) == Balance(w, u, asset)
  {
    hide AfterSwap, SwapQuote, Together, Balance;
    var w' := AfterTrade(w, treasury, t);
    if t.from != t.to && t.fromPrice.Some? && t.toPrice.Some? && t.capOk && Balance(w, t.user, t.from) >= t.amount {
      var sell := if t.from == "NENO" then t.bid else t.fromPrice.value;
      var buy := if t.to == "NENO" then t.ask else t.toPrice.value;
      var receive := SwapQuote(t.amount, sell, buy).receive;
      SwapLosesFee(t.amount, sell, buy);
      SwapConservesExactlyWhen(w, treasury, t.user, t.from, t.to, t.amount, receive, t.writes);
      if asset != t.from && asset != t.to {
        UntouchedTogether(w, w', t.user, treasury, {t.from, t.to}, asset);
      }
    }
  }

  lemma TakenTogether(w: Wallets, treasury: string, user: string, neno: real, asset: string)
    requires neno > 0.0 && user != "" && treasury != "" && Balance(w, user, "NENO") >= neno
    ensures var taken := Taken(w, treasury, user, neno);
            && Together(taken, user, treasury, asset) == Together(w, user, treasury, asset)
            && w.Keys <= taken.Keys
  {
  }

  lemma BookedTogether(w: Wallets, treasury: string, user: string, amount: real, booking: Write, asset: string)
    requires treasury != "" && (treasury, "EUR") in w
    ensures Together(Booked(w, treasury, "EUR", amount, booking), user, treasury, asset) ==
            Together(w, user, treasury, asset) - if asset == "EUR" && !booking.NotWritten? then amount else 0.0
  {
  }

  lemma SentTogether(w: Wallets, treasury: string, user: string, sent: Stable, asset: string)
    requires treasury != "" && (sent.StableLeaves? ==> (treasury, sent.asset) in w)
    ensures Together(AfterSend(w, treasury, sent), user, treasury, asset) ==
            Together(w, user, treasury, asset) - DrawnBySend(sent, asset)
  {
  }

  /** Sending stablecoins and refunding NENO do not get in each other's way. */
  lemma RefundAfterSend(w: Wallets, treasury: string, user: string, neno: real, sent: Stable)
    requires sent.StableLeaves? ==> sent.asset != "NENO"
    ensures Refunded(AfterSend(w, treasury, sent), treasury, user, neno) ==
            AfterSend(Refunded(w, treasury, user, neno), treasury, sent)
  {
  }

  lemma RefundedTogether(w: Wallets, treasury: string, user: string, neno: real, asset: string)
    requires neno > 0.0 && user != "" && treasury != "" && Balance(w, user, "NENO") >= neno
    ensures var w' := Refunded(Taken(w, treasury, user, neno), treasury, user, neno);
            Together(w', user, treasury, asset) == Together(w, user, treasury, asset) && w.Keys <= w'.Keys
  {
    RefundUndoesTaking(w, treasury, user, neno, user, asset);
    RefundUndoesTaking(w, treasury, user, neno, treasury, asset);
  }

  lemma CourseDraws(w: Wallets, treasury: string, t: Trade, asset: string)
    requires WellFormed(t) && t.Offramp? && Whole(t) && treasury != "" && Stocked(w, treasury, t)
    ensures Together(AfterTrade(w, treasury, t), t.user, treasury, asset) ==
            Together(w, t.user, treasury, asset) - Drawn(w, t, asset)
  {
    hide Net, BankAmount, StableOutcome, Taken, Refunded, AfterSend, Booked, DrawnBySend, Together, Balance;
    var net := Net(t.neno, t.world);
    var c := CourseOf(Balance(w, t.user, "NENO"), t.neno, t.destination, t.world);
    var taken := Taken(w, treasury, t.user, t.neno);
    if !c.Refused? {
      TakenTogether(w, treasury, t.user, t.neno, asset);
      if c.CardPaid? {
        BookedTogether(taken, treasury, t.user, net, c.booking, asset);
      } else if c.BankPaid? {
        BookedTogether(taken, treasury, t.user, BankAmount(net), c.booking, asset);
      } else if c.StablePaid? || (c.Refunding? && c.refund.NoneRefunded?) {
        SentTogether(taken, treasury, t.user, c.sent, asset);
      } else if c.Refunding? {
        RefundAfterSend(taken, treasury, t.user, t.neno, c.sent);
        RefundedTogether(w, treasury, t.user, t.neno, asset);
        SentTogether(Refunded(taken, treasury, t.user, t.neno), treasury, t.user, c.sent, asset);
      }
    }
  }

  lemma TradeConserves(w: Wallets, treasury: string, holders: seq<string>, t: Trade, asset: string)
    requires WellFormed(t) && Whole(t) && treasury != "" && Stocked(w, treasury, t)
    requires Distinct(holders) && treasury in holders && t.user in holders
    ensures Supply(AfterTrade(w, treasury, t), holders, asset) == Supply(w, holders, asset) - Drawn(w, t, asset)
  {
    hide Balance, Supply, CourseOf, AfterOfframp;
    var w' := AfterTrade(w, treasury, t);
    if t.Swap? {
      SwapConserves(w, treasury, t, asset);
    } else {
      OfframpConservesNeno(w, treasury, t.user, t.neno, t.destination, t.world);
      CourseDraws(w, treasury, t, asset);
    }
    SupplyMoves(w, w', holders, t.user, treasury, asset);
  }

  lemma StillStocked(w: Wallets, w': Wallets, treasury: string, t: Trade)
    requires w.Keys <= w'.Keys && Stocked(w, treasury, t)
    ensures Stocked(w', treasury, t)
  {
  }

  /**
    Over every run of swaps and off-ramps by any users that are not broken off halfway, with a treasury
    that starts with the wallets it is to pay from: all holders together own of every asset what they
    owned at the start, less exactly what the off-ramps drew from the treasury for the outside.
  */
  lemma {:induction false} RunsConserveSupply(w: Wallets, treasury: string, holders: seq<string>,
                                              ts: seq<Trade>, asset: string)
    requires Distinct(holders) && treasury in holders && treasury != ""
    requires forall t :: t in ts ==> WellFormed(t) && Whole(t) && t.user in holders && Stocked(w, treasury, t)
    ensures Supply(AfterTrades(w, treasury, ts), holders, asset) ==
            Supply(w, holders, asset) - DrawnInAll(w, treasury, ts, asset)
    ensures w.Keys <= AfterTrades(w, treasury, ts).Keys
  {
    hide AfterTrade, Supply, WellFormed, Whole, Stocked, Drawn;
    if ts != [] {
      var before, t := ts[..|ts| - 1], ts[|ts| - 1];
      assert t in ts;
      RunsConserveSupply(w, treasury, holders, before, asset);
      StillStocked(w, AfterTrades(w, treasury, before), treasury, t);
      TradeConserves(AfterTrades(w, treasury, before), treasury, holders, t, asset);
      WalletsStay(AfterTrades(w, treasury, before), treasury, t);
    }
  }

  /** Of NENO, and of any other asset but euros and the two stablecoins, nothing is ever drawn. */
  lemma {:induction false} OnlyPayoutAssetsDrawn(w: Wallets, treasury: string, ts: seq<Trade>, asset: string)
    requires asset !in {"EUR", "USDT", "USDC"} && forall t :: t in ts ==> WellFormed(t)
    ensures DrawnInAll(w, treasury, ts, asset) == 0.0
  {
    hide Net, BankAmount, AfterTrade, WellFormed;
    if ts != [] {
      OnlyPayoutAssetsDrawn(w, treasury, ts[..|ts| - 1], asset);
    }
  }

  /** No wallet of anyone but the treasury is overdrawn. */
  ghost predicate Solvent(w: Wallets, treasury: string) {
    forall u, a :: u != treasury ==> Balance(w, u, a) >= 0.0
  }

  lemma SwapKeepsSolvent(w: Wallets, treasury: string, t: Trade)
    requires WellFormed(t) && t.Swap? && Solvent(w, treasury)
    ensures Solvent(AfterTrade(w, treasury, t), treasury)
  {
    hide SwapQuote;
    if t.fromPrice.Some? && t.toPrice.Some? {
      SwapLosesFee(t.amount, if t.from == "NENO" then t.bid else t.fromPrice.value,
                   if t.to == "NENO" then t.ask else t.toPrice.value);
    }
    var w' := AfterTrade(w, treasury, t);
    forall u, a | u != treasury ensures Balance(w', u, a) >= 0.0 {
      assert Balance(w, u, a) >= 0.0;
    }
  }

  lemma OfframpKeepsSolvent(w: Wallets, treasury: string, t: Trade)
    requires WellFormed(t) && t.Offramp? && Solvent(w, treasury)
    ensures Solvent(AfterTrade(w, treasury, t), treasury)
  {
    hide Net, BankAmount, StableOutcome;
    var w' := AfterTrade(w, treasury, t);
    forall u, a | u != treasury ensures Balance(w', u, a) >= 0.0 {
      assert Balance(w, u, a) >= 0.0;
    }
  }

  /**
    In every run, whoever trades, whatever the payouts answer and wherever the database breaks a trade
    off, no user's wallet goes below zero.
  */
  lemma {:induction false} RunsKeepSolvent(w: Wallets, treasury: string, ts: seq<Trade>)
    requires Solvent(w, treasury) && forall t :: t in ts ==> WellFormed(t)
    ensures Solvent(AfterTrades(w, treasury, ts), treasury)
  {
    hide AfterTrade, Solvent, WellFormed;
    if ts != [] {
      var before, t := AfterTrades(w, treasury, ts[..|ts| - 1]), ts[|ts| - 1];
      assert t in ts;
      RunsKeepSolvent(w, treasury, ts[..|ts| - 1]);
      if t.Swap? {
        SwapKeepsSolvent(before, treasury, t);
      } else {
        OfframpKeepsSolvent(before, treasury, t);
      }
    }
  }

  /** A bank payout is for a negative amount exactly when less than the minimum withdrawal fee is left. */
  lemma BankAmountNegativeExactlyWhen(cents: int)
    requires cents >= 0
    ensures BankAmount(cents as real / 100.0) < 0.0 <==> cents < 50
  {
    var net := cents as real / 100.0;
    RoundingError(net * 0.001);
    RoundFixed(net, cents);
    if Round2(net * 0.001) > 0.5 {
      RoundMonotone(0.0, net - Round2(net * 0.001));
      RoundZero();
    } else {
      RoundFixed(net - 0.5, cents - 50);
    }
  }
}
