/**
  The execution worker (workers/transactionWorker.js) with the confirmation listener it calls
  (lib/blockchain/confirmationListener.cjs). The four passes are loops over a queue read at the
  start; WorkerInterleaving lets any number of workers and other writers interleave.
*/
module TransactionWorker {
  import opened Wrappers
  import opened JsText
  import opened Batches

  datatype Status =
    | RoutingActive | Pending | Broadcasting | ExecutionAttempted | ExecutionSuccessful
    | SettlementPending | SettlementConfirmed | ExecutionFallbackActive | Confirmed | Broadcasted
    | FailedUnrecoverable | OtherStatus(name: string)

  datatype StepName =
    | Init | OnchainExecutionQueued | TxSigned | ExecutionSucceeded | ExecutionFailed | ConfirmationFailed
    | ChainFailed | ChainConfirmed | PayoutRequested | Finalized
    | DeferredSettlementActive | ProviderFailedRetrying | AwaitingRealLiquidity | LiquidityBootstrapActive
    | SettlementSourceReady | OtherStep(name: string)

  datatype Kind = Swap | Offramp | OtherKind(name: string)

  datatype Row = Row(
    id: string, kind: Kind, status: Status, step: StepName, chainStatus: Option<string>, finality: string,
    txHash: Option<string>, fromAddress: Option<string>, fiatCurrency: Option<string>,
    settlementId: Option<string>, errorMessage: Option<string>)

  // ----- the writes -----

  predicate Claimable(s: Status) {
    s == RoutingActive || s == Pending
  }

  predicate Broadcastable(s: Status) {
    s == Pending || s == Broadcasting || s == RoutingActive || s == ExecutionAttempted
  }

  function ClaimedRow(row: Row, wallet: string): Row {
    row.(status := ExecutionAttempted, step := TxSigned, fromAddress := Some(wallet),
         chainStatus := Some("signed"), finality := "routing_active")
  }

  function SentRow(row: Row, hash: string, wallet: string): Row {
    row.(status := ExecutionSuccessful, step := ExecutionSucceeded, chainStatus := Some("pending"),
         finality := "settlement_pending", txHash := Some(hash), fromAddress := Some(wallet))
  }

  /** `snapshot` is the row as the pass read it; only its chain status is carried over. */
  function FailedRow(row: Row, snapshot: Row, step: StepName, error: string): Row {
    Apply(row, FailPatch(snapshot, step, error))
  }

  function RetryFailedRow(row: Row, error: string): Row {
    row.(status := ExecutionAttempted, step := AwaitingRealLiquidity, finality := "execution_attempted",
         chainStatus := Some("funding_required"), errorMessage := Some(error))
  }

  // ----- external answers -----

  /** What the error of a refused update says. */
  const REFUSED := "update refused"

  /**
    What comes of handing a row to the chain. After a send the database can refuse the update that
    records it, and publishing its events can throw. The send itself can throw although the node took
    the transaction: `live` is its hash then, which the worker never learns.
  */
  datatype Sending =
    | Sent(hash: string, wallet: string, recorded: bool, published: bool)
    | SendThrows(error: string, live: Option<string>)

  /** WalletThrows: the wallet lookup, or the statement that claims the row. */
  datatype ClaimAnswer = WalletThrows(error: string) | Wallet(address: string, published: bool)

  /** Requesting a payout, which can throw although the provider took it, and publishing that it was requested. */
  datatype Payout = PayoutThrows(error: string, made: bool) | PayoutMade(settlementId: string, published: bool)

  /** `recorded`: the database takes the listener's update; `published`: the events after it get through. */
  datatype ChainAnswer =
    | LookupThrows(error: string)
    | Unseen(chainStatus: string, recorded: bool)
    | ReceiptFailed(recorded: bool, published: bool)
    | Mined(chainStatus: string, confirmations: int, payout: Payout, recorded: bool, published: bool)

  datatype Routing = Routed(row: Row) | RouterThrows(left: Row, error: string)

  const FINALITY := 12

  predicate IsFinal(a: ChainAnswer)
    requires a.Mined?
  {
    a.chainStatus == "finalized" || a.confirmations >= FINALITY
  }

  predicate NeedsPayout(row: Row) {
    row.kind == Offramp && Upper(if row.fiatCurrency.Some? then row.fiatCurrency.value else "") != "USDT"
  }

  // ----- each pass on one row -----

  function AfterBroadcast(row: Row, snapshot: Row, sending: Sending): Row {
    if !Broadcastable(row.status) then row
    else if row.kind.OtherKind? then FailedRow(row, snapshot, ExecutionFailed, "not executable")
    else match sending
      case SendThrows(error, _) => FailedRow(row, snapshot, ExecutionFailed, error)
      case Sent(hash, wallet, recorded, published) =>
        var sent := SentRow(row, hash, wallet);
        if !recorded then FailedRow(row, snapshot, ExecutionFailed, REFUSED)
        else if published then sent
        else FailedRow(sent, snapshot, ExecutionFailed, "event bus")
  }

  /** The hash of the transaction on the chain. */
  function LiveHash(sending: Sending): Option<string> {
    match sending
    case Sent(hash, _, _, _) => Some(hash)
    case SendThrows(_, live) => live
  }

  predicate Sends(row: Row, sending: Sending) {
    Broadcastable(row.status) && !row.kind.OtherKind? && LiveHash(sending).Some?
  }

  function AfterPending(row: Row, claim: ClaimAnswer, sending: Sending): Row {
    match claim
    case WalletThrows(error) => FailedRow(row, row, ExecutionFailed, error)
    case Wallet(address, published) =>
      if !Claimable(row.status) then row
      else if !published then FailedRow(ClaimedRow(row, address), row, ExecutionFailed, "event bus")
      else AfterBroadcast(ClaimedRow(row, address), row, sending)
  }

  /** The columns an update sets; the others are left alone. */
  datatype Patch = Patch(
    status: Option<Status>, step: Option<StepName>, chainStatus: string, finality: string,
    settlementId: Option<string>, errorMessage: Option<string>)

  function Apply(row: Row, p: Patch): Row {
    row.(status := if p.status.Some? then p.status.value else row.status,
         step := if p.step.Some? then p.step.value else row.step,
         chainStatus := Some(p.chainStatus), finality := p.finality,
         settlementId := if p.settlementId.Some? then p.settlementId else row.settlementId,
         errorMessage := if p.errorMessage.Some? then p.errorMessage else row.errorMessage)
  }

  function FailPatch(snapshot: Row, step: StepName, error: string): Patch {
    Patch(Some(FailedUnrecoverable), Some(step),
          if Truthy(snapshot.chainStatus) then snapshot.chainStatus.value else "failed",
          "failed_unrecoverable", None, Some(error))
  }

  predicate Confirms(t: Row, chainStatus: string) {
    (chainStatus == "confirmed" || chainStatus == "finalized")
    && t.status in {SettlementPending, ExecutionSuccessful, ExecutionAttempted, Broadcasted}
  }

  function RefusedUnless(recorded: bool): Option<string> {
    if recorded then None else Some(REFUSED)
  }

  /** The exception that stops the listener before it has updated the row `t` its pass has read. */
  function ThrownBefore(t: Row, a: ChainAnswer): Option<string> {
    match a
    case LookupThrows(error) => Some(error)
    case Unseen(_, recorded) => RefusedUnless(recorded)
    case ReceiptFailed(recorded, _) => RefusedUnless(recorded)
    case Mined(_, _, payout, recorded, _) =>
      if !(IsFinal(a) && NeedsPayout(t)) then RefusedUnless(recorded)
      else match payout
        case PayoutThrows(error, _) => Some(error)
        case PayoutMade(_, published) => if published then RefusedUnless(recorded) else Some("event bus")
  }

  /** What the listener sets when nothing stops it. */
  function ListenerPatch(t: Row, a: ChainAnswer): Patch
    requires ThrownBefore(t, a).None?
  {
    match a
    case Unseen(chainStatus, _) => Patch(None, None, chainStatus, "settlement_pending", None, None)
    case ReceiptFailed(_, _) =>
      Patch(Some(FailedUnrecoverable), Some(ChainFailed), "failed", "failed_unrecoverable", None,
            Some("Transaction receipt status is failed"))
    case Mined(chainStatus, _, payout, _, _) =>
      if !IsFinal(a) then
        var confirms := Confirms(t, chainStatus);
        Patch(if confirms then Some(SettlementPending) else None, if confirms then Some(ChainConfirmed) else None,
              chainStatus, "settlement_pending", None, None)
      else if NeedsPayout(t) then
        Patch(Some(SettlementPending), Some(PayoutRequested), chainStatus, "settlement_pending",
              Some(payout.settlementId), None)
      else
        Patch(Some(SettlementConfirmed), Some(Finalized), chainStatus, "finalized",
              if Truthy(t.settlementId) then t.settlementId
              else Some("chain:" + if t.txHash.Some? then t.txHash.value else "null"), None)
  }

  /** The listener has updated the row, and publishing what it did then throws. */
  predicate EventLost(t: Row, a: ChainAnswer) {
    && ThrownBefore(t, a).None?
    && ((a.ReceiptFailed? && !a.published) || (a.Mined? && !a.published && ListenerPatch(t, a).status.Some?))
  }

  /** The first write for the row: the listener's, or failTransaction's if the listener did not get that far. */
  function MonitorPatch(t: Row, a: ChainAnswer): Patch {
    var thrown := ThrownBefore(t, a);
    if thrown.Some? then FailPatch(t, ConfirmationFailed, thrown.value) else ListenerPatch(t, a)
  }

  function AfterMonitor(row: Row, a: ChainAnswer): Row {
    var updated := Apply(row, MonitorPatch(row, a));
    if EventLost(row, a) then FailedRow(updated, row, ConfirmationFailed, "event bus") else updated
  }

  predicate MakesPayout(row: Row, a: ChainAnswer) {
    a.Mined? && IsFinal(a) && NeedsPayout(row) && (a.payout.PayoutMade? || a.payout.made)
  }

  /** The row as the router left it, before the worker reacts to an exception. */
  function LeftBy(routing: Routing): Row {
    match routing case Routed(left) => left case RouterThrows(left, _) => left
  }

  function AfterRetry(row: Row, routing: Routing): Row {
    match routing
    case Routed(left) => left
    case RouterThrows(left, error) => RetryFailedRow(left, error)
  }

  // ----- what each pass selects -----

  predicate Executable(k: Kind) {
    k == Swap || k == Offramp
  }

  predicate SelectsPending(row: Row) {
    Claimable(row.status) && Executable(row.kind) && row.step in {OnchainExecutionQueued, Init}
  }

  predicate SelectsSigned(row: Row) {
    row.status == ExecutionAttempted && Executable(row.kind) && row.step in {TxSigned, OnchainExecutionQueued}
  }

  predicate SelectsMonitor(row: Row) {
    row.status in {SettlementPending, ExecutionSuccessful, ExecutionAttempted, Confirmed} && row.txHash.Some?
  }

  predicate SelectsRetry(row: Row) {
    && row.status in {SettlementPending, ExecutionFallbackActive, ExecutionAttempted}
    && row.step in {DeferredSettlementActive, ProviderFailedRetrying, AwaitingRealLiquidity,
                    LiquidityBootstrapActive, SettlementSourceReady}
    && row.txHash.None?
  }

  type Table = map<string, Row>

  predicate WellKeyed(rows: Table) {
    forall id :: id in rows ==> rows[id].id == id
  }

  // ----- the worker object -----

  class Worker {
    var rows: Table

    constructor (initial: Table)
      ensures rows == initial
    {
      rows := initial;
    }

    method ClaimPendingTransaction(id: string, wallet: string) returns (claimed: bool)
      requires id in rows
      modifies this
      ensures claimed <==> Claimable(old(rows)[id].status)
      ensures rows == if claimed then old(rows)[id := ClaimedRow(old(rows)[id], wallet)] else old(rows)
    {
      claimed := Claimable(rows[id].status);
      if claimed {
        rows := rows[id := ClaimedRow(rows[id], wallet)];
      }
    }

    method FailTransaction(snapshot: Row, step: StepName, error: string)
      requires snapshot.id in rows
      modifies this
      ensures rows == old(rows)[snapshot.id := FailedRow(old(rows)[snapshot.id], snapshot, step, error)]
    {
      rows := rows[snapshot.id := FailedRow(rows[snapshot.id], snapshot, step, error)];
    }

    /** The exception of the source is an error to be passed to FailTransaction. */
    method BroadcastTransaction(id: string, sending: Sending) returns (error: Option<string>)
      requires id in rows
      modifies this
      ensures rows.Keys == old(rows.Keys)
      ensures forall snapshot: Row :: snapshot.id == id ==>
                old(rows)[id := AfterBroadcast(old(rows)[id], snapshot, sending)] ==
                if error.None? then rows else rows[id := FailedRow(rows[id], snapshot, ExecutionFailed, error.value)]
    {
      var row := rows[id];
      assert old(rows)[id := row] == old(rows);
      if !Broadcastable(row.status) {
        return None;
      }
      if row.kind.OtherKind? {
        return Some("not executable");
      }
      if sending.SendThrows? {
        return Some(sending.error);
      }
      if !sending.recorded {
        return Some(REFUSED);
      }
      rows := rows[id := SentRow(row, sending.hash, sending.wallet)];
      if !sending.published {
        return Some("event bus");
      }
      return None;
    }

    method ProcessPendingTransactions(batch: seq<string>, claims: string -> ClaimAnswer, sendings: string -> Sending)
      requires WellKeyed(rows) && IsBatch(rows, batch, SelectsPending)
      modifies this
      ensures rows == OnBatch(old(rows), batch, (r: Row) => AfterPending(r, claims(r.id), sendings(r.id)))
    {
      hide OnBatch, FailedRow, ClaimedRow, AfterBroadcast, Claimable;
      ghost var after := (r: Row) => AfterPending(r, claims(r.id), sendings(r.id));
      ghost var was := rows;
      var transactions := rows;
      OnBatchNone(was, after);
      var i := 0;
      while i < |batch|
        invariant i <= |batch|
        invariant rows == OnBatch(was, batch[..i], after)
      {
        OnBatchNext(was, batch, i, after);
        var t := transactions[batch[i]];
        var claim := claims(t.id);
        if claim.WalletThrows? {
          FailTransaction(t, ExecutionFailed, claim.error);
        } else {
          var claimed := ClaimPendingTransaction(t.id, claim.address);
          if claimed && !claim.published {
            FailTransaction(t, ExecutionFailed, "event bus");
          } else if claimed {
            var error := BroadcastTransaction(t.id, sendings(t.id));
            if error.Some? {
              FailTransaction(t, ExecutionFailed, error.value);
            }
          }
        }
        i := i + 1;
      }
      assert batch[..i] == batch;
    }

    method ProcessSignedTransactions(batch: seq<string>, sendings: string -> Sending)
      requires WellKeyed(rows) && IsBatch(rows, batch, SelectsSigned)
      modifies this
      ensures rows == OnBatch(old(rows), batch, (r: Row) => AfterBroadcast(r, r, sendings(r.id)))
    {
      hide OnBatch, FailedRow, AfterBroadcast;
      ghost var after := (r: Row) => AfterBroadcast(r, r, sendings(r.id));
      ghost var was := rows;
      var transactions := rows;
      OnBatchNone(was, after);
      var i := 0;
      while i < |batch|
        invariant i <= |batch|
        invariant rows == OnBatch(was, batch[..i], after)
      {
        OnBatchNext(was, batch, i, after);
        var t := transactions[batch[i]];
        var error := BroadcastTransaction(t.id, sendings(t.id));
        if error.Some? {
          FailTransaction(t, ExecutionFailed, error.value);
        }
        i := i + 1;
      }
      assert batch[..i] == batch;
    }

    /** updateBroadcastedTransaction; its exception is an error to be passed to FailTransaction. */
    method UpdateBroadcastedTransaction(t: Row, a: ChainAnswer) returns (error: Option<string>, paid: bool)
      requires t.id in rows
      modifies this
      ensures paid == MakesPayout(t, a)
      ensures error == if EventLost(t, a) then Some("event bus") else ThrownBefore(t, a)
      ensures rows == if ThrownBefore(t, a).Some? then old(rows)
                      else old(rows)[t.id := Apply(old(rows)[t.id], ListenerPatch(t, a))]
    {
      hide NeedsPayout;
      paid := false;
      if a.LookupThrows? {
        return Some(a.error), paid;
      }
      var row := rows[t.id];
      if a.Unseen? {
        if !a.recorded {
          return Some(REFUSED), paid;
        }
        rows := rows[t.id := row.(chainStatus := Some(a.chainStatus), finality := "settlement_pending")];
        return None, paid;
      }
      if a.ReceiptFailed? {
        if !a.recorded {
          return Some(REFUSED), paid;
        }
        rows := rows[t.id := row.(status := FailedUnrecoverable, step := ChainFailed, chainStatus := Some("failed"),
                                  finality := "failed_unrecoverable",
                                  errorMessage := Some("Transaction receipt status is failed"))];
        return if a.published then None else Some("event bus"), paid;
      }
      var update := row.(chainStatus := Some(a.chainStatus), finality := "settlement_pending");
      var changed := Confirms(t, a.chainStatus);
      if changed {
        update := update.(status := SettlementPending, step := ChainConfirmed);
      }
      if IsFinal(a) {
        if NeedsPayout(t) {
          if a.payout.PayoutThrows? {
            paid := a.payout.made;
            return Some(a.payout.error), paid;
          }
          paid := true;
          if !a.payout.published {
            return Some("event bus"), paid;
          }
          update := update.(status := SettlementPending, step := PayoutRequested,
                            settlementId := Some(a.payout.settlementId));
        } else {
          update := update.(status := SettlementConfirmed, step := Finalized, finality := "finalized",
                            settlementId := if Truthy(t.settlementId) then t.settlementId
                                            else Some("chain:" + if t.txHash.Some? then t.txHash.value else "null"));
        }
        changed := true;
      }
      if !a.recorded {
        return Some(REFUSED), paid;
      }
      rows := rows[t.id := update];
      return if changed && !a.published then Some("event bus") else None, paid;
    }

    /** The body of the monitor loop: the listener, and failTransaction if it throws. */
    method MonitorTransaction(t: Row, a: ChainAnswer) returns (paid: bool)
      requires t.id in rows && rows[t.id] == t
      modifies this
      ensures paid == MakesPayout(t, a)
      ensures rows == old(rows)[t.id := AfterMonitor(t, a)]
    {
      hide Apply, ListenerPatch, ThrownBefore, EventLost, MakesPayout;
      var error;
      error, paid := UpdateBroadcastedTransaction(t, a);
      if error.Some? {
        FailTransaction(t, ConfirmationFailed, error.value);
      }
      LostAfter(t, a);
    }

    /** The payouts requested, in order. */
    method MonitorBroadcastedTransactions(batch: seq<string>, answers: string -> ChainAnswer)
      returns (payouts: seq<string>)
      requires WellKeyed(rows) && IsBatch(rows, batch, SelectsMonitor)
      modifies this
      ensures rows == OnBatch(old(rows), batch, (r: Row) => AfterMonitor(r, answers(r.id)))
      ensures payouts == PayoutsOf(old(rows), batch, answers)
    {
      hide OnBatch, AfterMonitor, MakesPayout;
      ghost var after := (r: Row) => AfterMonitor(r, answers(r.id));
      ghost var was := rows;
      var transactions := rows;
      OnBatchNone(was, after);
      payouts := [];
      var i := 0;
      while i < |batch|
        invariant i <= |batch|
        invariant rows == OnBatch(was, batch[..i], after)
        invariant payouts == PayoutsOf(was, batch[..i], answers)
      {
        OnBatchNext(was, batch, i, after);
        assert batch[..i + 1][..i] == batch[..i];
        var t := transactions[batch[i]];
        var paid := MonitorTransaction(t, answers(t.id));
        if paid {
          payouts := payouts + [t.id];
        }
        i := i + 1;
      }
      assert batch[..i] == batch;
    }

    method RetryDeferredSettlementTransactions(batch: seq<string>, routings: string -> Routing)
      requires WellKeyed(rows) && IsBatch(rows, batch, SelectsRetry)
      modifies this
      ensures rows == OnBatch(old(rows), batch, (r: Row) => AfterRetry(r, routings(r.id)))
    {
      hide OnBatch, RetryFailedRow;
      ghost var after := (r: Row) => AfterRetry(r, routings(r.id));
      ghost var was := rows;
      OnBatchNone(was, after);
      var i := 0;
      while i < |batch|
        invariant i <= |batch|
        invariant rows == OnBatch(was, batch[..i], after)
      {
        OnBatchNext(was, batch, i, after);
        var id := batch[i];
        match routings(id) {
          case Routed(left) =>
            rows := rows[id := left];
          case RouterThrows(left, error) =>
            rows := rows[id := left];
            rows := rows[id := RetryFailedRow(rows[id], error)];
        }
        i := i + 1;
      }
      assert batch[..i] == batch;
    }
  }

  lemma LostAfter(t: Row, a: ChainAnswer)
    ensures EventLost(t, a) ==> ThrownBefore(t, a).None?
  {
    hide ThrownBefore;
  }

  function PayoutsOf(rows: Table, batch: seq<string>, answers: string -> ChainAnswer): seq<string>
    requires forall id :: id in batch ==> id in rows && rows[id].id == id
  {
    if batch == [] then [] else
    var id := batch[|batch| - 1];
    var before := PayoutsOf(rows, batch[..|batch| - 1], answers);
    if MakesPayout(rows[id], answers(id)) then before + [id] else before
  }

  // ----- what each pass does to a row, by its columns -----

  /** The row was failed with this error; it keeps the chain status that its pass read, if there was one. */
  predicate FailedWith(r: Row, read: Row, step: StepName, error: string) {
    && r.status == FailedUnrecoverable && r.step == step && r.finality == "failed_unrecoverable"
    && r.errorMessage == Some(error) && r.id == read.id && r.kind == read.kind
    && r.chainStatus == if read.chainStatus in {None, Some("")} then Some("failed") else read.chainStatus
  }

  /** The row carries the hash and the wallet of the transaction that was sent for it. */
  predicate SentWith(r: Row, read: Row, sending: Sending) {
    && sending.Sent? && sending.recorded && sending.published
    && r.status == ExecutionSuccessful && r.step == ExecutionSucceeded && r.chainStatus == Some("pending")
    && r.finality == "settlement_pending" && r.txHash == Some(sending.hash)
    && r.fromAddress == Some(sending.wallet) && r.id == read.id && r.kind == read.kind
  }

  /**
    The signed pass: a row in one of four statuses is sent if it is a swap or an off-ramp and all goes
    well, and failed otherwise; any other row is left alone.
  */
  lemma SignedOutcome(row: Row, sending: Sending)
    ensures var r := AfterBroadcast(row, row, sending);
            if row.status !in {Pending, Broadcasting, RoutingActive, ExecutionAttempted} then r == row
            else if row.kind != Swap && row.kind != Offramp then FailedWith(r, row, ExecutionFailed, "not executable")
            else if sending.SendThrows? then FailedWith(r, row, ExecutionFailed, sending.error)
            else if !sending.recorded then FailedWith(r, row, ExecutionFailed, "update refused")
            else if !sending.published then FailedWith(r, row, ExecutionFailed, "event bus")
            else SentWith(r, row, sending)
  {
  }

  /** The pending pass: only a row in routing_active or pending is claimed, and then sent or failed alike. */
  lemma PendingOutcome(row: Row, claim: ClaimAnswer, sending: Sending)
    ensures var r := AfterPending(row, claim, sending);
            if claim.WalletThrows? then FailedWith(r, row, ExecutionFailed, claim.error)
            else if row.status != RoutingActive && row.status != Pending then r == row
            else if !claim.published then FailedWith(r, row, ExecutionFailed, "event bus")
            else if row.kind != Swap && row.kind != Offramp then FailedWith(r, row, ExecutionFailed, "not executable")
            else if sending.SendThrows? then FailedWith(r, row, ExecutionFailed, sending.error)
            else if !sending.recorded then FailedWith(r, row, ExecutionFailed, "update refused")
            else if !sending.published then FailedWith(r, row, ExecutionFailed, "event bus")
            else SentWith(r, row, sending)
  {
  }

  /** Between claim and send a row stands as signed by the claiming wallet, where the signed pass takes it up. */
  lemma ClaimedIsTakenUpAsSigned(row: Row, wallet: string)
    requires SelectsPending(row)
    ensures var r := ClaimedRow(row, wallet);
            && r == row.(status := ExecutionAttempted, step := TxSigned, chainStatus := Some("signed"),
                         finality := "routing_active", fromAddress := Some(wallet))
            && SelectsSigned(r) && !SelectsPending(r) && !SelectsRetry(r)
  {
  }

  /** What the listener reports of a row: the chain's own answer, kept as it was if it never came. */
  function ReportedStatus(row: Row, a: ChainAnswer): Option<string> {
    match a
    case LookupThrows(_) => None
    case Unseen(chainStatus, _) => Some(chainStatus)
    case ReceiptFailed(_, _) => Some("failed")
    case Mined(chainStatus, _, _, _, _) => Some(chainStatus)
  }

  /**
    The monitor pass short of a final answer. A failed receipt fails the row in its own step. A
    confirmation moves a row that is waiting for one to chain_confirmed and publishes that; otherwise only
    the chain status is noted. Any exception before or after the update fails the row in the listener's
    step, the chain status read or just written being kept.
  */
  lemma UnsettledOutcome(row: Row, a: ChainAnswer)
    requires !(a.Mined? && (a.chainStatus == "finalized" || a.confirmations >= 12))
    ensures var r := AfterMonitor(row, a);
            var confirms := a.Mined? && a.chainStatus == "confirmed"
                            && row.status in {SettlementPending, ExecutionSuccessful, ExecutionAttempted, Broadcasted};
            if a.LookupThrows? then FailedWith(r, row, ConfirmationFailed, a.error)
            else if !a.recorded then FailedWith(r, row, ConfirmationFailed, "update refused")
            else if (a.ReceiptFailed? || confirms) && !a.published then
              FailedWith(r, row, ConfirmationFailed, "event bus")
            else if a.ReceiptFailed? then
              FailedWith(r, row.(chainStatus := Some("failed")), ChainFailed, "Transaction receipt status is failed")
            else r == row.(chainStatus := ReportedStatus(row, a), finality := "settlement_pending",
                           status := if confirms then SettlementPending else row.status,
                           step := if confirms then ChainConfirmed else row.step)
  {
  }

  /** The payouts of a pass are those of its rows that make one, each once, in the order of the pass. */
  lemma {:induction false} PayoutsAreMade(rows: Table, batch: seq<string>, answers: string -> ChainAnswer)
    requires forall id :: id in batch ==> id in rows && rows[id].id == id
    requires forall i, j :: 0 <= i < j < |batch| ==> batch[i] != batch[j]
    ensures var payouts := PayoutsOf(rows, batch, answers);
            && (forall id :: id in payouts <==> id in batch && MakesPayout(rows[id], answers(id)))
            && (forall i, j :: 0 <= i < j < |payouts| ==> payouts[i] != payouts[j])
  {
    hide MakesPayout;
    if batch != [] {
      var front := batch[..|batch| - 1];
      PayoutsAreMade(rows, front, answers);
      assert batch == front + [batch[|batch| - 1]];
    }
  }

  // ----- who attends to a row -----

  const WAITING_STEPS := {DeferredSettlementActive, ProviderFailedRetrying, AwaitingRealLiquidity,
                          LiquidityBootstrapActive, SettlementSourceReady}

  /**
    Some pass attends to a row exactly when: it is an executable row waiting for its first send, or for a
    second one after the claim; it has a hash and is not yet settled; or it has none and waits for
    liquidity. Nothing ever attends to broadcasting, broadcasted, settled or failed rows.
  */
  lemma AttendedExactlyWhen(row: Row)
    ensures var executable := row.kind == Swap || row.kind == Offramp;
            SelectsPending(row) || SelectsSigned(row) || SelectsMonitor(row) || SelectsRetry(row) <==>
            match row.status
            case RoutingActive | Pending => executable && row.step in {OnchainExecutionQueued, Init}
            case ExecutionAttempted =>
              || row.txHash.Some? || row.step in WAITING_STEPS
              || (executable && row.step in {TxSigned, OnchainExecutionQueued})
            case SettlementPending => row.txHash.Some? || row.step in WAITING_STEPS
            case ExecutionSuccessful | Confirmed => row.txHash.Some?
            case ExecutionFallbackActive => row.txHash.None? && row.step in WAITING_STEPS
            case Broadcasting | SettlementConfirmed | Broadcasted | FailedUnrecoverable | OtherStatus(_) => false
  {
  }

  /** No two passes attend to one row, except that a row which already has a hash can be signed and monitored. */
  lemma AttendedByTwoExactlyWhen(row: Row)
    ensures !(SelectsPending(row) && (SelectsSigned(row) || SelectsMonitor(row) || SelectsRetry(row)))
    ensures !(SelectsRetry(row) && (SelectsSigned(row) || SelectsMonitor(row)))
    ensures SelectsSigned(row) && SelectsMonitor(row) <==>
              && row.status == ExecutionAttempted && row.txHash.Some?
              && (row.kind == Swap || row.kind == Offramp) && row.step in {TxSigned, OnchainExecutionQueued}
  {
  }

  /** Once sent a row is watched and never sent again by the passes, and a row whose retry threw is routed again. */
  lemma SentIsOnlyWatched(row: Row, sending: Sending, routing: Routing)
    ensures var r := AfterBroadcast(row, row, sending);
            SentWith(r, row, sending) ==>
              SelectsMonitor(r) && !SelectsPending(r) && !SelectsSigned(r) && !SelectsRetry(r)
    ensures routing.RouterThrows? ==>
              AfterRetry(row, routing) ==
              routing.left.(status := ExecutionAttempted, step := AwaitingRealLiquidity,
                            finality := "execution_attempted", chainStatus := Some("funding_required"),
                            errorMessage := Some(routing.error))
  {
  }

  // ----- what the passes guarantee, with no other writer during a pass -----

  datatype Pass =
    | PendingPass(batch: seq<string>, claims: string -> ClaimAnswer, sendings: string -> Sending)
    | SignedPass(batch: seq<string>, sendings: string -> Sending)
    | MonitorPass(batch: seq<string>, answers: string -> ChainAnswer)
    | RetryPass(batch: seq<string>, routings: string -> Routing)

  function AfterPass(rows: Table, p: Pass): Table {
    match p
    case PendingPass(batch, claims, sendings) =>
      if IsBatch(rows, batch, SelectsPending)
      then OnBatch(rows, batch, (r: Row) => AfterPending(r, claims(r.id), sendings(r.id))) else rows
    case SignedPass(batch, sendings) =>
      if IsBatch(rows, batch, SelectsSigned)
      then OnBatch(rows, batch, (r: Row) => AfterBroadcast(r, r, sendings(r.id))) else rows
    case MonitorPass(batch, answers) =>
      if IsBatch(rows, batch, SelectsMonitor)
      then OnBatch(rows, batch, (r: Row) => AfterMonitor(r, answers(r.id))) else rows
    case RetryPass(batch, routings) =>
      if IsBatch(rows, batch, SelectsRetry)
      then OnBatch(rows, batch, (r: Row) => AfterRetry(r, routings(r.id))) else rows
  }

  function AfterPasses(rows: Table, passes: seq<Pass>): Table {
    if passes == [] then rows else AfterPass(AfterPasses(rows, passes[..|passes| - 1]), passes[|passes| - 1])
  }

  /** Across any number of passes, whatever the wallet, the chain and the router answer, a failed row stays as it is. */
  lemma {:induction false} FailedUnrecoverableIsFinal(rows: Table, passes: seq<Pass>, id: string)
    requires id in rows && rows[id].status == FailedUnrecoverable
    ensures id in AfterPasses(rows, passes) && AfterPasses(rows, passes)[id] == rows[id]
  {
    if passes != [] {
      FailedUnrecoverableIsFinal(rows, passes[..|passes| - 1], id);
      var before, p := AfterPasses(rows, passes[..|passes| - 1]), passes[|passes| - 1];
      PassSkipsFailed(before, p, id);
    }
  }

  lemma PassSkipsFailed(rows: Table, p: Pass, id: string)
    requires id in rows && rows[id].status == FailedUnrecoverable
    ensures id in AfterPass(rows, p) && AfterPass(rows, p)[id] == rows[id]
  {
    hide AfterPending, AfterBroadcast, AfterMonitor, AfterRetry;
    var selects := Selection(p);
    if IsBatch(rows, p.batch, selects) {
      assert id !in p.batch by { NotInBatch(rows, p.batch, selects, id); }
    }
  }

  function Selection(p: Pass): Row -> bool {
    match p
    case PendingPass(_, _, _) => SelectsPending
    case SignedPass(_, _) => SelectsSigned
    case MonitorPass(_, _) => SelectsMonitor
    case RetryPass(_, _) => SelectsRetry
  }

  /** The state of a row after successive retry passes, which route it as long as they select it. */
  function Retried(row: Row, routings: seq<Routing>): Row {
    if routings == [] then row else
    var r := Retried(row, routings[..|routings| - 1]);
    if SelectsRetry(r) then AfterRetry(r, routings[|routings| - 1]) else r
  }

  /**
    A router that throws never gives a row up: whatever it wrote before, failed_unrecoverable included,
    the row is back as execution_attempted and is routed again, exactly as long as no router left a
    hash on it.
  */
  lemma {:induction false} ThrowingRouterNeverGivesUp(row: Row, routings: seq<Routing>)
    requires SelectsRetry(row) && forall r :: r in routings ==> r.RouterThrows?
    ensures var r := Retried(row, routings);
            && (SelectsRetry(r) <==> forall x :: x in routings ==> x.left.txHash.None?)
            && r.status != FailedUnrecoverable
  {
    if routings != [] {
      var front, last := routings[..|routings| - 1], routings[|routings| - 1];
      ThrowingRouterNeverGivesUp(row, front);
      assert routings == front + [last] && last in routings;
      assert forall x :: x in routings <==> x in front || x == last;
    }
  }

  /** The pass hands the row to the chain. */
  predicate Broadcasts(p: Pass, id: string) {
    match p
    case PendingPass(batch, claims, _) => id in batch && claims(id).Wallet? && claims(id).published
    case SignedPass(batch, _) => id in batch
    case MonitorPass(_, _) => false
    case RetryPass(_, _) => false
  }

  /**
    In both sending passes a row whose transaction went out is marked failed_unrecoverable exactly when
    the send threw all the same, the update that records it was refused, or an event was lost after it.
    It carries the hash of its live transaction exactly when the send returned and the update was taken,
    if it did not carry that hash before.
  */
  lemma SentEndsFailedExactlyWhen(rows: Table, p: Pass, id: string)
    requires WellKeyed(rows) && IsBatch(rows, p.batch, Selection(p))
    requires Broadcasts(p, id) && LiveHash(p.sendings(id)).Some?
    ensures var sending, row := p.sendings(id), AfterPass(rows, p)[id];
            && (row.status == FailedUnrecoverable <==> sending.SendThrows? || !sending.recorded || !sending.published)
            && (row.status == ExecutionSuccessful <==> sending.Sent? && sending.recorded && sending.published)
            && (rows[id].txHash != LiveHash(sending) ==>
                  (row.txHash == LiveHash(sending) <==> sending.Sent? && sending.recorded))
  {
    SelectedInBatch(rows, p, id);
  }

  lemma SelectedInBatch(rows: Table, p: Pass, id: string)
    requires WellKeyed(rows) && IsBatch(rows, p.batch, Selection(p)) && id in p.batch
    ensures id in rows && rows[id].id == id && Selection(p)(rows[id])
  {
  }

  /** The state of a row after successive monitor passes that select it, and the payouts they requested. */
  function Monitored(row: Row, answers: seq<ChainAnswer>): (Row, nat) {
    if answers == [] then (row, 0) else
    var (r, n) := Monitored(row, answers[..|answers| - 1]);
    var a := answers[|answers| - 1];
    if SelectsMonitor(r) then (AfterMonitor(r, a), if MakesPayout(r, a) then n + 1 else n) else (r, n)
  }

  predicate PaysOut(a: ChainAnswer) {
    a.Mined? && IsFinal(a) && (a.payout.PayoutMade? || a.payout.made)
  }

  /**
    The answer takes a fiat off-ramp out of the queue, which is failing it. A row still at `confirmed`
    publishes nothing before its transaction is final.
  */
  predicate FailsOfframp(confirmed: bool, a: ChainAnswer) {
    match a
    case LookupThrows(_) => true
    case Unseen(_, recorded) => !recorded
    case ReceiptFailed(_, _) => true
    case Mined(chainStatus, _, payout, recorded, published) =>
      if IsFinal(a) then payout.PayoutThrows? || !payout.published || !recorded || !published
      else !recorded || (!confirmed && !published && chainStatus == "confirmed")
  }

  datatype Watch = Watch(looked: nat, failed: bool, confirmed: bool)

  /** How many answers are looked at, whether the last of them fails the off-ramp, and the status it leaves. */
  function Watched(confirmed: bool, answers: seq<ChainAnswer>): (w: Watch)
    ensures w.looked <= |answers| && (!w.failed ==> w.looked == |answers|)
  {
    if answers == [] then Watch(0, false, confirmed) else
    var w, a := Watched(confirmed, answers[..|answers| - 1]), answers[|answers| - 1];
    if w.failed then w
    else Watch(w.looked + 1, FailsOfframp(w.confirmed, a), w.confirmed && !(a.Mined? && IsFinal(a)))
  }

  function CountPayouts(answers: seq<ChainAnswer>): nat {
    if answers == [] then 0
    else CountPayouts(answers[..|answers| - 1]) + if PaysOut(answers[|answers| - 1]) then 1 else 0
  }

  /**
    A fiat off-ramp stays in the monitor queue until an answer fails it, and the payouts requested for it
    are exactly those of the answers up to that one: one for each time its transaction was found final.
  */
  lemma {:induction false} PayoutsExactly(row: Row, answers: seq<ChainAnswer>)
    requires SelectsMonitor(row) && NeedsPayout(row)
    ensures var (r, n) := Monitored(row, answers);
            var w := Watched(row.status == Confirmed, answers);
            && n == CountPayouts(answers[..w.looked])
            && NeedsPayout(r)
            && (if w.failed then r.status == FailedUnrecoverable
                else SelectsMonitor(r) && (r.status == Confirmed <==> w.confirmed))
  {
    hide NeedsPayout, FailsOfframp, PaysOut, AfterMonitor, MakesPayout;
    if answers == [] {
      assert answers[..0] == [];
    } else {
      var front, a := answers[..|answers| - 1], answers[|answers| - 1];
      PayoutsExactly(row, front);
      var w := Watched(row.status == Confirmed, front);
      assert answers[..w.looked] == front[..w.looked];
      if !w.failed {
        OfframpStep(Monitored(row, front).0, a);
        assert answers[..|answers|] == answers && front[..|front|] == front;
      }
    }
  }

  lemma OfframpStep(row: Row, a: ChainAnswer)
    requires SelectsMonitor(row) && NeedsPayout(row)
    ensures var r := AfterMonitor(row, a);
            && MakesPayout(row, a) == PaysOut(a)
            && NeedsPayout(r)
            && if FailsOfframp(row.status == Confirmed, a) then r.status == FailedUnrecoverable
               else
                 && SelectsMonitor(r)
                 && (r.status == Confirmed <==> row.status == Confirmed && !(a.Mined? && IsFinal(a)))
  {
  }

  /** "USDT" in any mix of case. */
  predicate SpellsUsdt(s: string) {
    |s| == 4 && s[0] in "Uu" && s[1] in "Ss" && s[2] in "Dd" && s[3] in "Tt"
  }

  lemma UpperUsdt(s: string)
    ensures Upper(s) == "USDT" <==> SpellsUsdt(s)
  {
    if |s| == 4 {
      assert Upper(s) == [UpperChar(s[0]), UpperChar(s[1]), UpperChar(s[2]), UpperChar(s[3])];
      assert forall c :: UpperChar(c) == 'U' <==> c in "Uu";
      assert forall c :: UpperChar(c) == 'S' <==> c in "Ss";
      assert forall c :: UpperChar(c) == 'D' <==> c in "Dd";
      assert forall c :: UpperChar(c) == 'T' <==> c in "Tt";
    }
  }

  /**
    Who is paid out, by the columns of the row. A monitored row's payout is requested exactly when its
    transaction is finalized or has 12 confirmations, and the row is an off-ramp into anything but USDT.
    If all goes well such a row is left with its payout requested, and any other final row is settled;
    short of 12 confirmations nothing is requested or settled.
  */
  lemma PaidOutExactlyWhenFiatOfframp(row: Row, a: ChainAnswer)
    requires SelectsMonitor(row)
    ensures var r := AfterMonitor(row, a);
            var final := a.Mined? && (a.chainStatus == "finalized" || a.confirmations >= 12);
            var fiat := row.kind == Offramp && (row.fiatCurrency.None? || !SpellsUsdt(row.fiatCurrency.value));
            && (MakesPayout(row, a) <==> final && fiat && (a.payout.PayoutMade? || a.payout.made))
            && (final && fiat && a.payout.PayoutMade? && a.payout.published && a.recorded && a.published ==>
                  && r.status == SettlementPending && r.step == PayoutRequested
                  && r.settlementId == Some(a.payout.settlementId))
            && (final && !fiat && a.recorded && a.published ==>
                  && r.status == SettlementConfirmed && r.step == Finalized && r.finality == "finalized"
                  && (Truthy(row.settlementId) ==> r.settlementId == row.settlementId)
                  && (!Truthy(row.settlementId) ==> r.settlementId == Some("chain:" + row.txHash.value)))
            && (!final ==>
                  && r.settlementId == row.settlementId
                  && (r.status in {row.status, SettlementPending} || r.status == FailedUnrecoverable))
  {
    UpperUsdt(if row.fiatCurrency.Some? then row.fiatCurrency.value else "");
  }

  /**
    A final off-ramp that is not paid in USDT is never taken out of the monitor queue: every pass
    that finds its transaction final requests one more payout.
  */
  lemma {:induction false} EveryFinalPassPaysAgain(row: Row, answers: seq<ChainAnswer>)
    requires SelectsMonitor(row) && NeedsPayout(row)
    requires forall a :: a in answers ==>
               a.Mined? && IsFinal(a) && a.recorded && a.published && a.payout.PayoutMade? && a.payout.published
    ensures var (r, n) := Monitored(row, answers);
            && n == |answers|
            && SelectsMonitor(r) && NeedsPayout(r)
  {
    if answers != [] {
      EveryFinalPassPaysAgain(row, answers[..|answers| - 1]);
      assert answers[|answers| - 1] in answers;
    }
  }

  /**
    A row whose payout has been requested is nevertheless marked failed exactly when the request threw
    all the same, an event could not be published, before the update or after it, or the update was
    refused. It is never looked at again then, and it names the payout exactly when the request returned
    and the update was taken, if it did not name it before.
  */
  lemma PaidButFailedExactlyWhen(row: Row, a: ChainAnswer)
    requires MakesPayout(row, a) && SelectsMonitor(row)
    ensures var r := AfterMonitor(row, a);
            && (r.status == FailedUnrecoverable <==>
                  a.payout.PayoutThrows? || !a.payout.published || !a.recorded || !a.published)
            && (SelectsMonitor(r) <==> r.status != FailedUnrecoverable)
            && (a.payout.PayoutThrows? ==> r.settlementId == row.settlementId)
            && (a.payout.PayoutMade? && row.settlementId != Some(a.payout.settlementId) ==>
                  (r.settlementId == Some(a.payout.settlementId) <==> a.payout.published && a.recorded))
  {
    hide NeedsPayout;
  }

  /** Any other row leaves the queue with its first final answer, and no payout is ever requested for it. */
  lemma {:induction false} OtherRowsSettleOnce(row: Row, answers: seq<ChainAnswer>)
    requires !NeedsPayout(row)
    ensures var (r, n) := Monitored(row, answers);
            && n == 0 && !NeedsPayout(r)
            && (SelectsMonitor(row) && (exists a :: a in answers && a.Mined? && IsFinal(a)) ==> !SelectsMonitor(r))
  {
    if answers != [] {
      OtherRowsSettleOnce(row, answers[..|answers| - 1]);
      var a := answers[|answers| - 1];
      assert forall b :: b in answers ==> b in answers[..|answers| - 1] || b == a;
    }
  }
}
