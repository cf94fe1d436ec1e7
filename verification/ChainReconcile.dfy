/**
  Re-validation of every stored transaction against the chain, and the report and ledger built
  from the result (tools/reconcile-chain-truth.js, validateTransaction and main).
*/
module ChainReconcile {
  import opened Wrappers
  import opened ChainLedger
  import opened JsText
  import opened Sequences

  datatype ChainTx = ChainTx(from: string, to: Option<string>)

  datatype Receipt = Receipt(status: int, blockNumber: int, gasUsed: string, transferTo: Option<string>)

  /** What the provider answers for a hash: an exception, or a transaction and a receipt, either missing. */
  datatype Lookup = Throws | Answer(tx: Option<ChainTx>, receipt: Option<Receipt>)

  /** finality is None when BSC_FINALITY_CONFIRMATIONS is not a number: no count then reaches it. */
  datatype Chain = Chain(lookup: string -> Lookup, allowed: set<string>, currentBlock: int, finality: Option<int>)

  datatype Report = Report(
    transactionId: string, oldStatus: string, newStatus: string, chainVerified: bool,
    blockNumber: Option<int>, confirmations: int, finalState: string, anomaly: Option<string>)

  datatype Event = Event(transactionId: string, eventType: string)

  const FAILED := "failed_chain_validation"

  predicate IsHex(c: char) {
    '0' <= c <= '9' || 'a' <= c <= 'f' || 'A' <= c <= 'F'
  }

  predicate IsValidTxHash(h: Option<string>) {
    h.Some? && |h.value| == 66 && h.value[..2] == "0x" && forall i :: 2 <= i < 66 ==> IsHex(h.value[i])
  }

  datatype NextStatus = NextStatus(status: string, chainStatus: string, step: string, finalState: string)

  function StatusFromReceipt(receipt: Option<Receipt>, confirmations: int, finality: Option<int>): NextStatus {
    if receipt.None? || receipt.value.status != 1 then
      NextStatus(FAILED, "failed", "chain_failed_validation", FAILED)
    else if finality.Some? && confirmations >= finality.value then
      NextStatus("settled", "finalized", "finalized", "settled")
    else
      NextStatus("confirmed", "confirmed", "chain_confirmed", "confirmed")
  }

  function Confirmations(chain: Chain, blockNumber: int): nat {
    var c := chain.currentBlock - blockNumber + 1;
    if c > 0 then c else 0
  }

  // ----- the verdict on one row -----

  datatype Verdict =
    | Aborted
    | BadHash
    | NotOnChain(tx: Option<ChainTx>, found: Option<Receipt>)
    | Unauthorized(receipt: Receipt)
    | Mined(from: string, to: Option<string>, receipt: Receipt)

  function Judge(row: Row, chain: Chain): Verdict {
    if !IsValidTxHash(row.txHash) then BadHash else
    match chain.lookup(row.txHash.value)
    case Throws => Aborted
    case Answer(tx, receipt) =>
      if tx.None? || receipt.None? then NotOnChain(tx, receipt)
      else if Lower(tx.value.from) !in chain.allowed then Unauthorized(receipt.value)
      else Mined(tx.value.from, tx.value.to, receipt.value)
  }

  predicate Verified(v: Verdict) {
    v.Mined? && v.receipt.status == 1
  }

  function MarkFailed(row: Row, reason: string): Row {
    row.(status := FAILED, chainStatus := Some("invalid_chain_tx"), step := "chain_failed_validation",
         confirmations := 0, errorMessage := Some(reason))
  }

  /** The row as it stands in the database once the verdict has been written. */
  function Stored(row: Row, chain: Chain): Row {
    match Judge(row, chain)
    case Aborted => row
    case BadHash => MarkFailed(row, "missing_or_invalid_tx_hash")
    case NotOnChain(tx, _) => MarkFailed(row, if tx.Some? then "missing_receipt" else "tx_not_found_on_bsc")
    case Unauthorized(_) => MarkFailed(row, "unauthorized_from_address")
    case Mined(from, to, r) =>
      if r.status != 1 then MarkFailed(row, "receipt_status_failed") else
      var confirmations := Confirmations(chain, r.blockNumber);
      var next := StatusFromReceipt(Some(r), confirmations, chain.finality);
      row.(status := next.status, chainStatus := Some(next.chainStatus), step := next.step,
           blockNumber := Some(r.blockNumber), gasUsed := Some(r.gasUsed), confirmations := confirmations,
           fromAddress := Some(from), toAddress := if r.transferTo.Some? then r.transferTo else to,
           errorMessage := None)
  }

  function ReportOf(row: Row, chain: Chain): Report {
    match Judge(row, chain)
    case Aborted | BadHash =>
      Report(row.id, row.status, FAILED, false, None, 0, FAILED, Some("missing_or_invalid_tx_hash"))
    case NotOnChain(tx, r) =>
      Report(row.id, row.status, FAILED, false, if r.Some? then Some(r.value.blockNumber) else None, 0, FAILED,
             Some(if tx.Some? then "missing_receipt" else "tx_not_found_on_bsc"))
    case Unauthorized(r) =>
      Report(row.id, row.status, FAILED, false, Some(r.blockNumber), Confirmations(chain, r.blockNumber), FAILED,
             Some("unauthorized_from_address"))
    case Mined(_, _, r) =>
      var confirmations := Confirmations(chain, r.blockNumber);
      var next := StatusFromReceipt(Some(r), confirmations, chain.finality);
      Report(row.id, row.status, next.status, r.status == 1, Some(r.blockNumber), confirmations, next.finalState, None)
  }

  function EventsOf(row: Row, chain: Chain): (es: seq<Event>)
    ensures 1 <= |es| <= 4
    ensures forall e :: e in es ==> IsAudited(e)
  {
    var started := [Event(row.id, "chain.sync.started")];
    var v := Judge(row, chain);
    if v.Aborted? then started
    else if !Verified(v) then started + [Event(row.id, "chain.failed_validation")]
    else started + SuccessEvents(row.id, Stored(row, chain).status == "settled")
  }

  function SuccessEvents(id: string, settled: bool): seq<Event> {
    [Event(id, "chain.tx.validated"), Event(id, "chain.confirmed")]
    + if settled then [Event(id, "chain.settled")] else []
  }

  const AUDITED: seq<string> :=
    ["chain.sync.started", "chain.tx.validated", "chain.confirmed", "chain.settled", "chain.failed_validation"]

  predicate IsAudited(e: Event) {
    e.eventType in AUDITED
  }

  // ----- the full pass -----

  datatype Anomaly = Anomaly(transactionId: string, anomaly: string, oldStatus: string, newStatus: string)

  datatype Outcome = Outcome(
    report: seq<Report>, ledger: map<string, map<string, string>>, anomalies: seq<Anomaly>, auditLog: seq<Event>)

  function Anomalies(report: seq<Report>): seq<Anomaly> {
    if report == [] then [] else
    var r := report[0];
    (if r.chainVerified then [] else
       [Anomaly(r.transactionId, Or(r.anomaly, Some(r.finalState)).value, r.oldStatus, r.newStatus)])
    + Anomalies(report[1..])
  }

  function Audited(events: seq<Event>): seq<Event> {
    if events == [] then []
    else (if IsAudited(events[0]) then [events[0]] else []) + Audited(events[1..])
  }

  function Reverse(s: seq<Event>): (r: seq<Event>)
    ensures |r| == |s| && forall x :: x in r <==> x in s
  {
    if s == [] then [] else Reverse(s[1..]) + [s[0]]
  }

  /** `orderBy: desc, take: n`: the newest n events first. */
  function Newest(events: seq<Event>, n: nat): seq<Event> {
    var audited := Audited(events);
    Reverse(if |audited| <= n then audited else audited[|audited| - n..])
  }

  function Take(reports: nat): nat {
    if reports * 5 > 50 then reports * 5 else 50
  }

  function UsersOf(rows: seq<Row>): (users: seq<string>)
    ensures Distinct(users)
    ensures forall u :: u in users <==> exists t :: t in rows && t.userId == u
  {
    if rows == [] then [] else
    var users := UsersOf(rows[..|rows| - 1]);
    var last := rows[|rows| - 1];
    assert rows == rows[..|rows| - 1] + [last];
    if last.userId in users then users else users + [last.userId]
  }

  /** The rows a complete pass leaves behind. */
  function AllStored(rows: seq<Row>, chain: Chain): seq<Row> {
    seq(|rows|, i requires 0 <= i < |rows| => Stored(rows[i], chain))
  }

  /** The rows once the first n of them have been validated. */
  function PartlyStored(rows: seq<Row>, n: nat, chain: Chain): seq<Row>
    requires n <= |rows|
  {
    AllStored(rows[..n], chain) + rows[n..]
  }

  function AllReports(rows: seq<Row>, chain: Chain): seq<Report> {
    seq(|rows|, i requires 0 <= i < |rows| => ReportOf(rows[i], chain))
  }

  function AllEvents(rows: seq<Row>, chain: Chain): seq<Event> {
    if rows == [] then [] else AllEvents(rows[..|rows| - 1], chain) + EventsOf(rows[|rows| - 1], chain)
  }

  /** The first row whose lookup throws; the number of rows if none does. */
  function CompletedRows(rows: seq<Row>, chain: Chain): (n: nat)
    ensures n <= |rows|
    ensures forall i :: 0 <= i < n ==> !Judge(rows[i], chain).Aborted?
    ensures n < |rows| ==> Judge(rows[n], chain).Aborted?
  {
    if rows == [] || Judge(rows[0], chain).Aborted? then 0 else 1 + CompletedRows(rows[1..], chain)
  }

  /** The transaction and transactionEvent tables; `order` lists the ids by creation time. */
  class Store {
    var rows: map<string, Row>
    var order: seq<string>
    var events: seq<Event>

    ghost predicate Valid()
      reads this
    {
      && Distinct(order)
      && (forall i :: 0 <= i < |order| ==> order[i] in rows)
      && (forall id :: id in rows ==> id in order && rows[id].id == id)
    }

    function FindMany(): (found: seq<Row>)
      requires Valid()
      reads this
      ensures |found| == |order|
      ensures forall i :: 0 <= i < |order| ==> found[i] == rows[order[i]] && found[i].id == order[i]
    {
      seq(|order|, i requires 0 <= i < |order| reads this requires order[i] in rows => rows[order[i]])
    }

    method Update(row: Row)
      requires Valid() && row.id in rows
      modifies this`rows
      ensures Valid() && rows == old(rows)[row.id := row]
    {
      rows := rows[row.id := row];
    }

    method EmitEvent(id: string, eventType: string)
      modifies this`events
      ensures events == old(events) + [Event(id, eventType)]
    {
      events := events + [Event(id, eventType)];
    }

    method WriteFailure(transaction: Row, reason: string)
      requires Valid() && transaction.id in rows
      modifies this`rows, this`events
      ensures Valid() && rows == old(rows)[transaction.id := MarkFailed(transaction, reason)]
      ensures events == old(events) + [Event(transaction.id, "chain.failed_validation")]
    {
      Update(MarkFailed(transaction, reason));
      EmitEvent(transaction.id, "chain.failed_validation");
    }

    method WriteVerified(chain: Chain, transaction: Row, from: string, to: Option<string>, receipt: Receipt)
      requires Valid() && transaction.id in rows
      requires Judge(transaction, chain) == Mined(from, to, receipt) && receipt.status == 1
      modifies this`rows, this`events
      ensures Valid() && rows == old(rows)[transaction.id := Stored(transaction, chain)]
      ensures events == old(events) + SuccessEvents(transaction.id, Stored(transaction, chain).status == "settled")
    {
      var id, confirmations := transaction.id, Confirmations(chain, receipt.blockNumber);
      var next := StatusFromReceipt(Some(receipt), confirmations, chain.finality);
      hide Judge, StatusFromReceipt, Confirmations;
      Update(transaction.(
        status := next.status, chainStatus := Some(next.chainStatus), step := next.step,
        blockNumber := Some(receipt.blockNumber), gasUsed := Some(receipt.gasUsed),
        confirmations := confirmations, fromAddress := Some(from),
        toAddress := if receipt.transferTo.Some? then receipt.transferTo else to, errorMessage := None));
      EmitEvent(id, "chain.tx.validated");
      EmitEvent(id, "chain.confirmed");
      if next.status == "settled" {
        EmitEvent(id, "chain.settled");
      }
    }

    /** None: a provider call threw, leaving only the sync.started event behind. */
    method ValidateTransaction(chain: Chain, transaction: Row) returns (report: Option<Report>)
      requires Valid() && transaction.id in rows && rows[transaction.id] == transaction
      modifies this`rows, this`events
      ensures Valid() && rows == old(rows)[transaction.id := Stored(transaction, chain)]
      ensures events == old(events) + EventsOf(transaction, chain)
      ensures report == if Judge(transaction, chain).Aborted? then None else Some(ReportOf(transaction, chain))
    {
      hide Lower, StatusFromReceipt, Confirmations, MarkFailed, SuccessEvents;
      var id, oldStatus := transaction.id, transaction.status;
      assert old(rows)[id := transaction] == old(rows);
      EmitEvent(id, "chain.sync.started");
      if !IsValidTxHash(transaction.txHash) {
        WriteFailure(transaction, "missing_or_invalid_tx_hash");
        return Some(Report(id, oldStatus, FAILED, false, None, 0, FAILED, Some("missing_or_invalid_tx_hash")));
      }
      var answer := chain.lookup(transaction.txHash.value);
      if answer.Throws? {
        return None;
      }
      if answer.tx.None? || answer.receipt.None? {
        var reason := if answer.tx.Some? then "missing_receipt" else "tx_not_found_on_bsc";
        WriteFailure(transaction, reason);
        var blockNumber := if answer.receipt.Some? then Some(answer.receipt.value.blockNumber) else None;
        return Some(Report(id, oldStatus, FAILED, false, blockNumber, 0, FAILED, Some(reason)));
      }
      var tx, receipt := answer.tx.value, answer.receipt.value;
      var confirmations := Confirmations(chain, receipt.blockNumber);
      if chain.allowed == {} || Lower(tx.from) !in chain.allowed {
        WriteFailure(transaction, "unauthorized_from_address");
        return Some(Report(id, oldStatus, FAILED, false, Some(receipt.blockNumber), confirmations, FAILED,
                           Some("unauthorized_from_address")));
      }
      var next := StatusFromReceipt(Some(receipt), confirmations, chain.finality);
      assert Judge(transaction, chain) == Mined(tx.from, tx.to, receipt);
      if receipt.status != 1 {
        WriteFailure(transaction, "receipt_status_failed");
      } else {
        WriteVerified(chain, transaction, tx.from, tx.to, receipt);
      }
      return Some(Report(id, oldStatus, next.status, receipt.status == 1, Some(receipt.blockNumber), confirmations,
                         next.finalState, None));
    }

    /** The row read at position i is the row written there; every other row stays. */
    method ValidateRow(chain: Chain, i: nat) returns (report: Option<Report>)
      requires Valid() && i < |order|
      modifies this`rows, this`events
      ensures Valid() && order == old(order)
      ensures FindMany() == old(FindMany())[i := Stored(old(FindMany())[i], chain)]
      ensures events == old(events) + EventsOf(old(FindMany())[i], chain)
      ensures var t := old(FindMany())[i];
              report == if Judge(t, chain).Aborted? then None else Some(ReportOf(t, chain))
    {
      hide Stored, ReportOf, EventsOf, Judge;
      ghost var was := FindMany();
      var t := FindMany()[i];
      report := ValidateTransaction(chain, t);
      assert FindMany() == was[i := Stored(t, chain)];
    }

    /** The first pass. None: the provider threw, after the rows before that one had been rewritten. */
    method ValidateAll(chain: Chain) returns (report: Option<seq<Report>>)
      requires Valid()
      modifies this`rows, this`events
      ensures Valid() && order == old(order)
      ensures var was, n := old(FindMany()), CompletedRows(old(FindMany()), chain);
              && FindMany() == PartlyStored(was, n, chain)
              && events == old(events) + AllEvents(if n < |was| then was[..n + 1] else was, chain)
              && report == if n < |was| then None else Some(AllReports(was, chain))
    {
      hide Valid, FindMany, Stored, ReportOf, EventsOf, Judge, PartlyStored, AllReports, AllEvents, CompletedRows;
      var transactions := FindMany();
      PassStarts(transactions, chain);
      var reports: seq<Report> := [];
      var i := 0;
      ghost var n := CompletedRows(transactions, chain);
      while i < |transactions|
        invariant i <= n
        invariant Valid() && order == old(order)
        invariant FindMany() == PartlyStored(transactions, i, chain)
        invariant reports == AllReports(transactions[..i], chain)
        invariant events == old(events) + AllEvents(transactions[..i], chain)
      {
        PassGoesOn(transactions, i, chain);
        var one := ValidateRow(chain, i);
        if one.None? {
          assert i == n;
          return None;
        }
        reports := reports + [one.value];
        i := i + 1;
      }
      assert transactions[..i] == transactions;
      return Some(reports);
    }

    /**
      The whole run. None: the provider threw, or an amount to be counted does not parse. The rows
      up to the exception have been rewritten either way.
    */
    method Reconcile(chain: Chain) returns (outcome: Option<Outcome>)
      requires Valid()
      modifies this`rows, this`events
      ensures Valid() && order == old(order)
      ensures var was, n := old(FindMany()), CompletedRows(old(FindMany()), chain);
              && FindMany() == PartlyStored(was, n, chain)
              && events == old(events) + AllEvents(if n < |was| then was[..n + 1] else was, chain)
      ensures outcome ==
              var was := old(FindMany());
              var ledger := LedgersOf(AllStored(was, chain));
              if CompletedRows(was, chain) < |was| || ledger.None? then None
              else Some(Outcome(AllReports(was, chain), ledger.value, Anomalies(AllReports(was, chain)),
                                Newest(events, Take(|was|))))
    {
      hide AllReports, AllEvents, Stored, LedgersOf;
      ghost var was := FindMany();
      var report := ValidateAll(chain);
      if report.None? {
        return None;
      }
      var refreshed := FindMany();
      assert was[..|was|] == was && refreshed == AllStored(was, chain);
      var ledger := DeriveLedgers(refreshed);
      if ledger.None? {
        return None;
      }
      assert |report.value| == |was| by { ReportCount(was, chain); }
      return Some(Outcome(report.value, ledger.value, Anomalies(report.value), Newest(events, Take(|report.value|))));
    }
  }

  lemma PassStarts(rows: seq<Row>, chain: Chain)
    ensures PartlyStored(rows, 0, chain) == rows
    ensures AllReports(rows[..0], chain) == [] && AllEvents(rows[..0], chain) == []
  {
  }

  /** What validating the row at position i adds to a pass that has done the rows before it. */
  lemma PassGoesOn(rows: seq<Row>, i: nat, chain: Chain)
    requires i < |rows|
    ensures var now := PartlyStored(rows, i, chain);
            && |now| == |rows| && now[i] == rows[i]
            && PartlyStored(rows, i + 1, chain) == now[i := Stored(rows[i], chain)]
            && (Judge(rows[i], chain).Aborted? ==> now[i := Stored(rows[i], chain)] == now)
    ensures AllReports(rows[..i + 1], chain) == AllReports(rows[..i], chain) + [ReportOf(rows[i], chain)]
    ensures AllEvents(rows[..i + 1], chain) == AllEvents(rows[..i], chain) + EventsOf(rows[i], chain)
  {
    hide ReportOf, EventsOf, Stored, Judge;
    assert rows[..i + 1][..i] == rows[..i];
    if Judge(rows[i], chain).Aborted? {
      AbortedStays(rows[i], chain);
    }
  }

  lemma ReportCount(rows: seq<Row>, chain: Chain)
    ensures |AllReports(rows, chain)| == |rows|
  {
  }

  lemma AbortedStays(row: Row, chain: Chain)
    requires Judge(row, chain).Aborted?
    ensures Stored(row, chain) == row
  {
  }

  function UserLedger(rows: seq<Row>, user: string): Option<Ledger> {
    Derive(Select(rows, OfUser(user)))
  }

  /** One derived ledger for each user that owns a row; None if any of them cannot be derived. */
  function LedgersOf(rows: seq<Row>): Option<map<string, map<string, string>>> {
    var users := UsersOf(rows);
    if forall u :: u in users ==> UserLedger(rows, u).Some?
    then Some(map u | u in users :: Printed(UserLedger(rows, u).value))
    else None
  }

  method DeriveLedgers(rows: seq<Row>) returns (ledger: Option<map<string, map<string, string>>>)
    ensures ledger == LedgersOf(rows)
  {
    hide UsersOf, UserLedger, Printed;
    var users := UsersOf(rows);
    var filled: map<string, map<string, string>> := map[];
    var k := 0;
    while k < |users|
      invariant k <= |users|
      invariant forall u :: u in filled <==> u in users[..k]
      invariant forall u :: u in users[..k] ==> UserLedger(rows, u).Some?
      invariant forall u :: u in filled ==> filled[u] == Printed(UserLedger(rows, u).value)
    {
      var derived := LedgerOfUser(rows, users[k]);
      assert users[k] in users;
      if derived.None? {
        return None;
      }
      assert users[..k + 1] == users[..k] + [users[k]];
      filled := filled[users[k] := derived.value];
      k := k + 1;
    }
    assert users[..k] == users;
    assert filled == map u | u in users :: Printed(UserLedger(rows, u).value);
    return Some(filled);
  }

  method LedgerOfUser(rows: seq<Row>, user: string) returns (ledger: Option<map<string, string>>)
    ensures UserLedger(rows, user).None? ==> ledger.None?
    ensures UserLedger(rows, user).Some? ==> ledger == Some(Printed(UserLedger(rows, user).value))
  {
    hide Derive;
    ledger := DeriveBalances(Select(rows, OfUser(user)));
  }

  // ----- validation and derivation agree -----

  lemma LowerFixed(s: string)
    requires forall i :: 0 <= i < |s| ==> !('A' <= s[i] <= 'Z')
    ensures Lower(s) == s
  {
  }

  /** The derivation counts a row exactly when the validation verified it, and both name the same status. */
  lemma VerifiedExactlyWhenEligible(row: Row, chain: Chain)
    requires !Judge(row, chain).Aborted?
    ensures Eligible(Stored(row, chain)) <==> ReportOf(row, chain).chainVerified
    ensures ReportOf(row, chain).newStatus == Stored(row, chain).status
    ensures ReportOf(row, chain).finalState == Stored(row, chain).status
  {
    LowerFixed("confirmed");
    LowerFixed("settled");
    LowerFixed("finalized");
    LowerFixed(FAILED);
    assert |FAILED| != |"confirmed"| && |FAILED| != |"settled"|;
  }

  /** "0x" and 64 hexadecimal digits, as the columns hold them. */
  predicate WellFormedHash(h: Option<string>) {
    && h.Some? && |h.value| == 66 && h.value[0] == '0' && h.value[1] == 'x'
    && forall i :: 2 <= i < 66 ==> h.value[i] in "0123456789abcdefABCDEF"
  }

  lemma HexDigit(c: char)
    ensures IsHex(c) <==> c in "0123456789abcdefABCDEF"
  {
    var digits := "0123456789abcdefABCDEF";
    if '0' <= c <= '9' {
      assert c == digits[(c - '0') as int];
    } else if 'a' <= c <= 'f' {
      assert c == digits[10 + (c - 'a') as int];
    } else if 'A' <= c <= 'F' {
      assert c == digits[16 + (c - 'A') as int];
    }
  }

  lemma HashForm(h: Option<string>)
    ensures IsValidTxHash(h) <==> WellFormedHash(h)
  {
    hide IsHex;
    if h.Some? && |h.value| == 66 {
      assert h.value[..2] == [h.value[0], h.value[1]];
      forall i | 2 <= i < 66 ensures IsHex(h.value[i]) <==> h.value[i] in "0123456789abcdefABCDEF" {
        HexDigit(h.value[i]);
      }
    }
  }

  /** What the chain has to answer for the row to be verified. */
  predicate AllowedAndMined(row: Row, chain: Chain) {
    && WellFormedHash(row.txHash)
    && var answer := chain.lookup(row.txHash.value);
       && answer.Answer? && answer.tx.Some? && answer.receipt.Some?
       && Lower(answer.tx.value.from) in chain.allowed && answer.receipt.value.status == 1
  }

  /**
    What it takes to be verified: a well-formed hash, a transaction and its receipt on the chain, a sender
    on the allow-list, and a receipt that reports success. An empty list verifies nothing. A verified row
    is settled exactly when the blocks from its own to the current one, both counted, reach a finality
    that is a number, and confirmed otherwise; any other row whose lookup does not throw has failed.
  */
  lemma VerifiedExactlyWhenAllowedAndMined(row: Row, chain: Chain)
    ensures ReportOf(row, chain).chainVerified <==> AllowedAndMined(row, chain)
    ensures chain.allowed == {} ==> !ReportOf(row, chain).chainVerified
    ensures var stored := Stored(row, chain);
            if AllowedAndMined(row, chain) then
              var receipt := chain.lookup(row.txHash.value).receipt.value;
              var depth := chain.currentBlock - receipt.blockNumber + 1;
              var final := chain.finality.Some? && (if depth < 0 then 0 else depth) >= chain.finality.value;
              && (stored.status, stored.chainStatus, stored.step) ==
                 (if final then ("settled", Some("finalized"), "finalized")
                  else ("confirmed", Some("confirmed"), "chain_confirmed"))
              && stored.blockNumber == Some(receipt.blockNumber) && stored.errorMessage == None
              && stored.confirmations == (if depth < 0 then 0 else depth)
              && var tx := chain.lookup(row.txHash.value).tx.value;
                 && stored.fromAddress == Some(tx.from)
                 && stored.toAddress == (if receipt.transferTo.None? then tx.to else receipt.transferTo)
            else if WellFormedHash(row.txHash) && chain.lookup(row.txHash.value).Throws? then stored == row
            else
              && stored.status == "failed_chain_validation" && stored.chainStatus == Some("invalid_chain_tx")
              && stored.step == "chain_failed_validation" && stored.confirmations == 0
              && stored.errorMessage == Some(WhyNot(row, chain))
  {
    hide IsHex, Lower;
    HashForm(row.txHash);
  }

  /** The first of the requirements that is not met. */
  function WhyNot(row: Row, chain: Chain): string {
    if !WellFormedHash(row.txHash) || chain.lookup(row.txHash.value).Throws? then "missing_or_invalid_tx_hash"
    else
      var answer := chain.lookup(row.txHash.value);
      if answer.tx.None? then "tx_not_found_on_bsc"
      else if answer.receipt.None? then "missing_receipt"
      else if Lower(answer.tx.value.from) !in chain.allowed then "unauthorized_from_address"
      else "receipt_status_failed"
  }

  /**
    The report says what was stored: the same reason for a row that failed, unless it failed by its
    receipt, which the report names by its status alone; and the same block and depth for a verified one.
  */
  lemma ReportTellsWhatIsStored(row: Row, chain: Chain)
    requires !Judge(row, chain).Aborted?
    ensures var report, stored := ReportOf(row, chain), Stored(row, chain);
            && report.transactionId == row.id && report.oldStatus == row.status
            && report.newStatus == stored.status == report.finalState
            && report.anomaly == (if AllowedAndMined(row, chain) || WhyNot(row, chain) == "receipt_status_failed"
                                  then None else stored.errorMessage)
            && (AllowedAndMined(row, chain) ==>
                  report.blockNumber == stored.blockNumber && report.confirmations == stored.confirmations)
            && (WhyNot(row, chain) in {"missing_or_invalid_tx_hash", "tx_not_found_on_bsc", "missing_receipt"} ==>
                  report.confirmations == 0)
  {
    hide IsHex, Lower;
    HashForm(row.txHash);
    VerifiedExactlyWhenAllowedAndMined(row, chain);
    ReasonsDiffer(WhyNot(row, chain));
  }

  lemma ReasonsDiffer(reason: string)
    ensures reason == "unauthorized_from_address" || reason == "receipt_status_failed" ==>
              reason !in {"missing_or_invalid_tx_hash", "tx_not_found_on_bsc", "missing_receipt"}
    ensures reason != "receipt_status_failed" || reason != "unauthorized_from_address"
  {
    assert "receipt_status_failed"[0] == 'r' && "unauthorized_from_address"[0] == 'u';
    assert "missing_or_invalid_tx_hash"[0] == 'm' && "tx_not_found_on_bsc"[0] == 't' && "missing_receipt"[0] == 'm';
  }

  /**
    What a row's validation emits: its start, nothing more if the provider throws, then the failure, or
    for a verified row the validation, the confirmation and, exactly when it is stored as settled, the
    settlement.
  */
  lemma EventsTellWhatIsStored(row: Row, chain: Chain)
    ensures var types := seq(|EventsOf(row, chain)|, i requires 0 <= i < |EventsOf(row, chain)| =>
                               EventsOf(row, chain)[i].eventType);
            types == ["chain.sync.started"]
                     + if AllowedAndMined(row, chain) then
                         ["chain.tx.validated", "chain.confirmed"]
                         + if Stored(row, chain).status == "settled" then ["chain.settled"] else []
                       else if WellFormedHash(row.txHash) && chain.lookup(row.txHash.value).Throws? then []
                       else ["chain.failed_validation"]
    ensures forall e :: e in EventsOf(row, chain) ==> e.transactionId == row.id
  {
    hide IsHex, Lower, Stored;
    HashForm(row.txHash);
  }

  /** The anomalies printed are those of exactly the rows that are not verified, each with its reason. */
  lemma {:induction false} AnomalyExactlyWhenUnverified(rows: seq<Row>, chain: Chain)
    requires CompletedRows(rows, chain) == |rows|
    ensures Anomalies(AllReports(rows, chain)) == UnverifiedRows(rows, chain)
  {
    hide ReportOf, AllowedAndMined, WhyNot, Judge;
    if rows != [] {
      AnomalyExactlyWhenUnverified(rows[1..], chain);
      VerifiedExactlyWhenAllowedAndMined(rows[0], chain);
      ReportTellsWhatIsStored(rows[0], chain);
      if !AllowedAndMined(rows[0], chain) {
        StoredReason(rows[0], chain);
      }
      assert AllReports(rows, chain)[1..] == AllReports(rows[1..], chain);
    }
  }

  lemma StoredReason(row: Row, chain: Chain)
    requires !Judge(row, chain).Aborted? && !AllowedAndMined(row, chain)
    ensures Stored(row, chain).errorMessage == Some(WhyNot(row, chain)) && Stored(row, chain).status == FAILED
    ensures WhyNot(row, chain) != ""
  {
    hide IsHex, Lower;
    HashForm(row.txHash);
    VerifiedExactlyWhenAllowedAndMined(row, chain);
  }

  /** One anomaly for each row the chain does not bear out; a failed receipt is reported by its status. */
  function UnverifiedRows(rows: seq<Row>, chain: Chain): seq<Anomaly> {
    if rows == [] then []
    else
      var row, reason := rows[0], WhyNot(rows[0], chain);
      (if AllowedAndMined(row, chain) then []
       else [Anomaly(row.id, if reason == "receipt_status_failed" then FAILED else reason, row.status, FAILED)])
      + UnverifiedRows(rows[1..], chain)
  }

  /** The row is of a known type and names an asset that its type posts to. */
  predicate NamesAnAsset(t: Row) {
    var kind := Lower(t.kind);
    || (kind == "onramp" && Truthy(t.toToken))
    || (kind == "offramp" && (Truthy(t.fromToken) || Truthy(t.fiatCurrency) || Truthy(t.toToken)))
    || (kind == "swap" && (Truthy(t.fromToken) || Truthy(t.toToken)))
  }

  /** Of the rows with readable amounts that name an asset to post to, exactly the verified ones are posted. */
  lemma CountedExactlyWhenVerified(row: Row, chain: Chain)
    requires !Judge(row, chain).Aborted?
    ensures Postings(Stored(row, chain)) != [] <==>
            ReportOf(row, chain).chainVerified && Parses(row) && NamesAnAsset(row)
  {
    hide Lower, Upper, Eligible, Parses, Stored, ReportOf, PostingsFor, NamesAnAsset, Judge;
    var r := Stored(row, chain);
    VerifiedExactlyWhenEligible(row, chain);
    StoredKeepsColumns(row, chain);
    SameAmounts(r, row);
    if Parses(r) {
      PostsExactlyWhen(r, row);
    }
  }

  lemma SameAmounts(r: Row, t: Row)
    requires SameColumns(r, t)
    ensures Parses(r) == Parses(t)
  {
  }

  lemma PostsExactlyWhen(r: Row, t: Row)
    requires SameColumns(r, t)
    ensures forall crypto, fiat :: PostingsFor(r, crypto, fiat) != [] <==> NamesAnAsset(t)
  {
    hide Lower;
  }

  function IsEligible(): Row -> bool {
    (t: Row) => Eligible(t)
  }

  lemma {:induction false} DropIneligible(rows: seq<Row>)
    ensures Derive(rows) == Derive(Select(rows, IsEligible()))
  {
    hide Derive, Eligible;
    if rows != [] {
      var t, rest := rows[0], rows[1..];
      DropIneligible(rest);
      assert rows == [t] + rest;
      if Eligible(t) {
        DeriveConcat([t], rest);
        DeriveConcat([t], Select(rest, IsEligible()));
      } else {
        DeriveIneligible([], t, rest);
        assert [] + [t] + rest == rows && [] + rest == rest;
        assert [] + Select(rest, IsEligible()) == Select(rest, IsEligible());
      }
    }
  }

  /** The rows whose report says chainVerified, as they are stored afterwards. */
  function VerifiedRows(rows: seq<Row>, chain: Chain): seq<Row> {
    if rows == [] then []
    else (if ReportOf(rows[0], chain).chainVerified then [Stored(rows[0], chain)] else [])
         + VerifiedRows(rows[1..], chain)
  }

  lemma {:induction false} VerifiedAreEligible(rows: seq<Row>, chain: Chain)
    requires CompletedRows(rows, chain) == |rows|
    ensures VerifiedRows(rows, chain) == Select(AllStored(rows, chain), IsEligible())
  {
    if rows != [] {
      hide Eligible, Stored, ReportOf, Judge;
      VerifiedExactlyWhenEligible(rows[0], chain);
      assert CompletedRows(rows[1..], chain) == |rows[1..]|;
      VerifiedAreEligible(rows[1..], chain);
      assert AllStored(rows, chain)[1..] == AllStored(rows[1..], chain);
    }
  }

  /** After a complete pass the ledger of all users together is the ledger of the verified rows alone. */
  lemma LedgerIsOfVerifiedRows(rows: seq<Row>, chain: Chain)
    requires CompletedRows(rows, chain) == |rows|
    ensures var now := AllStored(rows, chain);
            MergeUsers(now, UsersOf(now)) == Derive(VerifiedRows(rows, chain))
  {
    var now := AllStored(rows, chain);
    hide Derive, Stored;
    assert forall t :: t in now ==> t.userId in UsersOf(now);
    PerUserLedgersSum(now, UsersOf(now));
    DropIneligible(now);
    VerifiedAreEligible(rows, chain);
  }

  // ----- running it again -----

  function Progress(status: string): nat {
    if status == "settled" then 2 else if status == "confirmed" then 1 else 0
  }

  /** With the same receipts and allow-list and a later block, no row's status moves back. */
  lemma RerunNeverRegresses(row: Row, chain: Chain, later: int)
    requires !Judge(row, chain).Aborted? && chain.currentBlock <= later
    ensures var first := Stored(row, chain);
            var again := chain.(currentBlock := later);
            && Judge(first, again) == Judge(row, chain)
            && Progress(Stored(first, again).status) >= Progress(first.status)
            && (first.status == "settled" ==> Stored(first, again).status == "settled")
            && (first.status == "confirmed" ==> Stored(first, again).status in {"confirmed", "settled"})
            && ReportOf(first, again).chainVerified == ReportOf(row, chain).chainVerified
            && Postings(Stored(first, again)) == Postings(first)
            && Readable(Stored(first, again)) == Readable(first)
  {
    hide Lower, Eligible, Postings, Readable, IsValidTxHash;
    var first, again := Stored(row, chain), chain.(currentBlock := later);
    assert first.txHash == row.txHash;
    assert Judge(first, again) == Judge(row, chain);
    VerifiedExactlyWhenEligible(row, chain);
    VerifiedExactlyWhenEligible(first, again);
    StoredKeepsColumns(first, again);
    SamePosted(Stored(first, again), first);
  }

  /** The columns a row is posted from. */
  predicate SameColumns(r: Row, t: Row) {
    && r.kind == t.kind && r.fromToken == t.fromToken && r.toToken == t.toToken
    && r.fiatCurrency == t.fiatCurrency && r.cryptoAmount == t.cryptoAmount && r.fiatAmount == t.fiatAmount
  }

  lemma StoredKeepsColumns(row: Row, chain: Chain)
    ensures SameColumns(Stored(row, chain), row)
  {
    hide Judge, StatusFromReceipt, Confirmations;
  }

  lemma SamePosted(r: Row, t: Row)
    requires SameColumns(r, t) && Eligible(r) == Eligible(t)
    ensures Postings(r) == Postings(t) && Readable(r) == Readable(t)
  {
    hide Eligible, PostingTo, UpperOrNone, Or, Lower;
  }

  lemma {:induction false} SamePostings(xs: seq<Row>, ys: seq<Row>)
    requires |xs| == |ys|
    requires forall i :: 0 <= i < |xs| ==> Postings(xs[i]) == Postings(ys[i]) && Readable(xs[i]) == Readable(ys[i])
    ensures AllPostings(xs) == AllPostings(ys) && Derive(xs) == Derive(ys)
  {
    hide Postings, Readable;
    if xs != [] {
      SamePostings(xs[1..], ys[1..]);
      assert xs == [xs[0]] + xs[1..] && ys == [ys[0]] + ys[1..];
    }
  }

  predicate SameForLedger(r: Row, t: Row) {
    r.userId == t.userId && Postings(r) == Postings(t) && Readable(r) == Readable(t)
  }

  lemma {:induction false} SelectSame(xs: seq<Row>, ys: seq<Row>, user: string)
    requires |xs| == |ys| && forall i :: 0 <= i < |xs| ==> SameForLedger(xs[i], ys[i])
    ensures var a, b := Select(xs, OfUser(user)), Select(ys, OfUser(user));
            |a| == |b| && forall i :: 0 <= i < |a| ==> SameForLedger(a[i], b[i])
  {
    hide Postings, Readable;
    if xs != [] {
      assert SameForLedger(xs[0], ys[0]);
      SelectSame(xs[1..], ys[1..], user);
    }
  }

  lemma {:induction false} SameUsers(xs: seq<Row>, ys: seq<Row>)
    requires |xs| == |ys| && forall i :: 0 <= i < |xs| ==> SameForLedger(xs[i], ys[i])
    ensures UsersOf(xs) == UsersOf(ys)
  {
    hide Postings, Readable;
    if xs != [] {
      var n := |xs| - 1;
      assert SameForLedger(xs[n], ys[n]);
      SameUsers(xs[..n], ys[..n]);
    }
  }

  lemma SameUserLedger(xs: seq<Row>, ys: seq<Row>, user: string)
    requires |xs| == |ys| && forall i :: 0 <= i < |xs| ==> SameForLedger(xs[i], ys[i])
    ensures UserLedger(xs, user) == UserLedger(ys, user)
  {
    hide Derive, SameForLedger, Select;
    SelectSame(xs, ys, user);
    var a, b := Select(xs, OfUser(user)), Select(ys, OfUser(user));
    forall i | 0 <= i < |a| ensures Postings(a[i]) == Postings(b[i]) && Readable(a[i]) == Readable(b[i]) {
      PostsAlike(a[i], b[i]);
    }
    SamePostings(a, b);
  }

  /** Rows that post alike for the same users give every user the same ledger, or fail alike. */
  lemma SameLedgers(xs: seq<Row>, ys: seq<Row>)
    requires |xs| == |ys| && forall i :: 0 <= i < |xs| ==> SameForLedger(xs[i], ys[i])
    ensures LedgersOf(xs) == LedgersOf(ys)
  {
    hide UsersOf, Printed, UserLedger, SameForLedger;
    SameUsers(xs, ys);
    forall user ensures UserLedger(xs, user) == UserLedger(ys, user) {
      SameUserLedger(xs, ys, user);
    }
    if LedgersOf(xs).Some? {
      assert LedgersOf(ys).Some? && LedgersOf(xs).value == LedgersOf(ys).value;
    }
  }

  lemma PostsAlike(r: Row, t: Row)
    ensures SameForLedger(r, t) ==> Postings(r) == Postings(t) && Readable(r) == Readable(t)
  {
  }

  /** So a second complete pass prints every user the ledger the first one printed. */
  lemma RerunKeepsLedger(rows: seq<Row>, chain: Chain, later: int)
    requires CompletedRows(rows, chain) == |rows| && chain.currentBlock <= later
    ensures var first := AllStored(rows, chain);
            var again := chain.(currentBlock := later);
            && CompletedRows(first, again) == |first|
            && LedgersOf(AllStored(first, again)) == LedgersOf(first)
  {
    hide Stored, Judge, Postings, Readable, LedgersOf;
    var first, again := AllStored(rows, chain), chain.(currentBlock := later);
    forall i | 0 <= i < |rows|
      ensures !Judge(first[i], again).Aborted?
      ensures SameForLedger(AllStored(first, again)[i], first[i])
    {
      RerunNeverRegresses(rows[i], chain, later);
      KeepsUser(first[i], again);
    }
    SameLedgers(AllStored(first, again), first);
  }

  lemma KeepsUser(row: Row, chain: Chain)
    ensures Stored(row, chain).userId == row.userId
  {
    hide Judge, StatusFromReceipt, Confirmations;
  }

  // ----- the audit log -----

  function Least(a: nat, b: nat): nat {
    if a < b then a else b
  }

  function Most(a: nat, b: nat): nat {
    if a < b then b else a
  }

  lemma {:induction false} AuditedConcat(before: seq<Event>, added: seq<Event>)
    ensures Audited(before + added) == Audited(before) + Audited(added)
  {
    hide IsAudited;
    if before == [] {
      assert before + added == added;
    } else {
      AuditedConcat(before[1..], added);
      var first := if IsAudited(before[0]) then [before[0]] else [];
      assert (before + added)[1..] == before[1..] + added;
      assert Audited(before + added) == first + Audited(before[1..] + added);
      assert first + (Audited(before[1..]) + Audited(added)) == first + Audited(before[1..]) + Audited(added);
    }
  }

  lemma {:induction false} AuditedIdentity(added: seq<Event>)
    requires forall e :: e in added ==> IsAudited(e)
    ensures Audited(added) == added
  {
    hide IsAudited;
    if added != [] {
      AuditedIdentity(added[1..]);
    }
  }

  lemma {:induction false} EventsPerRow(rows: seq<Row>, chain: Chain)
    ensures |AllEvents(rows, chain)| <= 4 * |rows|
    ensures forall e :: e in AllEvents(rows, chain) ==> IsAudited(e)
  {
    hide EventsOf, IsAudited;
    if rows != [] {
      EventsPerRow(rows[..|rows| - 1], chain);
    }
  }

  lemma {:induction false} ReverseConcat(a: seq<Event>, b: seq<Event>)
    ensures Reverse(a + b) == Reverse(b) + Reverse(a)
  {
    if a == [] {
      assert a + b == b;
    } else {
      ReverseConcat(a[1..], b);
      assert (a + b)[1..] == a[1..] + b;
      assert Reverse(b) + Reverse(a[1..]) + [a[0]] == Reverse(b) + (Reverse(a[1..]) + [a[0]]);
    }
  }

  /**
    The audit log printed with the report begins with every event this run emitted, the newest first,
    and goes on with earlier ones up to five a row or fifty, whichever is more.
  */
  lemma AuditLogIsComplete(before: seq<Event>, rows: seq<Row>, chain: Chain)
    ensures var added := AllEvents(rows, chain);
            var printed := Newest(before + added, Take(|rows|));
            && |printed| >= |added| && printed[..|added|] == Reverse(added)
            && |printed| == Least(|Audited(before + added)|, Most(5 * |rows|, 50))
  {
    hide AllEvents, IsAudited, Reverse, Audited;
    var added, n := AllEvents(rows, chain), Take(|rows|);
    EventsPerRow(rows, chain);
    AuditedConcat(before, added);
    AuditedIdentity(added);
    var earlier, audited := Audited(before), Audited(before + added);
    assert audited == earlier + added;
    var shown := if |audited| <= n then earlier else earlier[|audited| - n..];
    assert (if |audited| <= n then audited else audited[|audited| - n..]) == shown + added;
    ReverseConcat(shown, added);
  }
}
