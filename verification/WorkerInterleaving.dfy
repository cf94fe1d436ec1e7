/**
  Any number of execution workers over one table, interleaved step by step with each other and with
  other writers (workers/transactionWorker.js, claimPendingTransaction to the four passes). A step of
  a worker makes at most one write to the table, except that the retry step also covers what the
  router leaves; lookups and events that no other writer can tell apart go with the write they
  surround. The compare-and-set of a claim is one step.
*/
module WorkerInterleaving {
  import opened Wrappers
  import opened Batches
  import opened JsText
  import opened TransactionWorker

  datatype PassKind = PendingQueue | SignedQueue | MonitorQueue | RetryQueue

  /** Where a worker stands; `queue` holds the rows as its pass read them, the first being worked on. */
  datatype Local =
    | Idle
    | Looping(kind: PassKind, queue: seq<Row>)
    | Reading(kind: PassKind, queue: seq<Row>)
    | Executing(kind: PassKind, queue: seq<Row>, row: Row)
    | Recording(kind: PassKind, queue: seq<Row>, row: Row, hash: string, wallet: string)
    | Publishing(kind: PassKind, queue: seq<Row>)
    | Failing(kind: PassKind, queue: seq<Row>, step: StepName, error: string)

  datatype SentRecord = SentRecord(id: string, hash: string)

  datatype ClaimRecord = ClaimRecord(id: string, period: nat, worker: nat)

  /**
    `sent` logs the transactions put on the chain, `claims` the claims won; `periods` counts, per
    row, how often it has entered routing_active or pending.
  */
  datatype World = World(
    rows: Table, locals: map<nat, Local>, sent: seq<SentRecord>,
    claims: seq<ClaimRecord>, periods: map<string, nat>)

  datatype Action =
    | Begin(w: nat, kind: PassKind, batch: seq<string>)
    | Claim(w: nat, answer: ClaimAnswer)
    | ReadFresh(w: nat)
    | ReadThrows(w: nat, error: string)
    | Execute(w: nat, sending: Sending)
    | Record(w: nat)
    | RefuseRecord(w: nat)                // the database refuses the update after the send
    | Publish(w: nat, ok: bool)
    | Fail(w: nat)
    | Monitor(w: nat, chain: ChainAnswer)
    | Retry(w: nat, routing: Routing)
    | Stop(w: nat)                        // a crash, or an exception that ends the pass
    | External(id: string, row: Row)

  function At(s: World, w: nat): Local {
    if w in s.locals then s.locals[w] else Idle
  }

  function PeriodOf(s: World, id: string): nat {
    if id in s.periods then s.periods[id] else 0
  }

  predicate Selects(kind: PassKind, row: Row) {
    match kind
    case PendingQueue => SelectsPending(row)
    case SignedQueue => SelectsSigned(row)
    case MonitorQueue => SelectsMonitor(row)
    case RetryQueue => SelectsRetry(row)
  }

  function NextRow(l: Local): Local
    requires !l.Idle? && l.queue != []
  {
    if |l.queue| == 1 then Idle else Looping(l.kind, l.queue[1..])
  }

  function Put(s: World, row: Row): World {
    var enters := Claimable(row.status) && !(row.id in s.rows && Claimable(s.rows[row.id].status));
    s.(rows := s.rows[row.id := row],
       periods := if enters then s.periods[row.id := PeriodOf(s, row.id) + 1] else s.periods)
  }

  function Go(s: World, w: nat, l: Local): World {
    s.(locals := s.locals[w := l])
  }

  predicate Enabled(s: World, a: Action) {
    match a
    case Begin(w, kind, batch) =>
      && At(s, w).Idle? && batch != []
      && IsBatch(s.rows, batch, (r: Row) => Selects(kind, r))
    case Claim(w, _) => At(s, w).Looping? && At(s, w).kind == PendingQueue
    case ReadFresh(w) => At(s, w).Reading? || (At(s, w).Looping? && At(s, w).kind == SignedQueue)
    case ReadThrows(w, _) => At(s, w).Reading? || (At(s, w).Looping? && At(s, w).kind == SignedQueue)
    case Execute(w, _) => At(s, w).Executing?
    case Record(w) => At(s, w).Recording?
    case RefuseRecord(w) => At(s, w).Recording?
    case Publish(w, _) => At(s, w).Publishing?
    case Fail(w) => At(s, w).Failing?
    case Monitor(w, _) => At(s, w).Looping? && At(s, w).kind == MonitorQueue
    case Retry(w, routing) =>
      && At(s, w).Looping? && At(s, w).kind == RetryQueue
      && (At(s, w).queue != [] ==> LeftBy(routing).id == At(s, w).queue[0].id)
    case Stop(w) => !At(s, w).Idle?
    case External(id, row) => row.id == id
  }

  predicate HasRow(l: Local) {
    !l.Idle? && l.queue != []
  }

  /** The worker has a row in hand, and the row is in the table. */
  predicate AtRow(s: World, w: nat) {
    HasRow(At(s, w)) && At(s, w).queue[0].id in s.rows
  }

  function RowOf(s: World, w: nat): Row
    requires AtRow(s, w)
  {
    s.rows[At(s, w).queue[0].id]
  }

  function Abandon(l: Local, error: string): Local
    requires !l.Idle?
  {
    Failing(l.kind, l.queue, ExecutionFailed, error)
  }

  function AfterClaim(s: World, w: nat, answer: ClaimAnswer): World
    requires AtRow(s, w)
  {
    var l, row := At(s, w), RowOf(s, w);
    if answer.WalletThrows? then Go(s, w, Abandon(l, answer.error))
    else if !Claimable(row.status) then Go(s, w, NextRow(l))
    else
      var id := l.queue[0].id;
      var won := Put(s, ClaimedRow(row, answer.address)).(claims := s.claims + [ClaimRecord(id, PeriodOf(s, id), w)]);
      Go(won, w, if answer.published then Reading(l.kind, l.queue) else Abandon(l, "event bus"))
  }

  function AfterRead(s: World, w: nat): World
    requires AtRow(s, w)
  {
    var l, row := At(s, w), RowOf(s, w);
    Go(s, w, if Broadcastable(row.status) then Executing(l.kind, l.queue, row) else NextRow(l))
  }

  /** A send that throws may have reached the chain; then it is logged, though the worker does not know. */
  function AfterExecute(s: World, w: nat, sending: Sending): World
    requires AtRow(s, w) && At(s, w).Executing?
  {
    var l := At(s, w);
    if l.row.kind.OtherKind? then Go(s, w, Abandon(l, "not executable"))
    else
      var live := LiveHash(sending);
      var logged := if live.Some? then s.(sent := s.sent + [SentRecord(l.queue[0].id, live.value)]) else s;
      match sending
      case SendThrows(error, _) => Go(logged, w, Abandon(l, error))
      case Sent(hash, wallet, _, _) => Go(logged, w, Recording(l.kind, l.queue, l.row, hash, wallet))
  }

  function AfterRecord(s: World, w: nat): World
    requires AtRow(s, w) && At(s, w).Recording?
  {
    var l := At(s, w);
    Go(Put(s, SentRow(RowOf(s, w), l.hash, l.wallet)), w, Publishing(l.kind, l.queue))
  }

  function AfterFail(s: World, w: nat): World
    requires AtRow(s, w) && At(s, w).Failing?
  {
    var l := At(s, w);
    Go(Put(s, FailedRow(RowOf(s, w), l.queue[0], l.step, l.error)), w, NextRow(l))
  }

  function AfterRouting(s: World, w: nat, routing: Routing): World
    requires AtRow(s, w)
  {
    var routed := Put(s, LeftBy(routing));
    Go(if routing.RouterThrows? then Put(routed, RetryFailedRow(routing.left, routing.error)) else routed,
       w, NextRow(At(s, w)))
  }

  /** If the events after the listener's update are lost, the row is still to be failed. */
  function AfterUpdate(l: Local, chain: ChainAnswer): Local
    requires HasRow(l)
  {
    if EventLost(l.queue[0], chain) then Failing(l.kind, l.queue, ConfirmationFailed, "event bus") else NextRow(l)
  }

  function Next(s: World, a: Action): World {
    match a
    case External(_, row) => Put(s, row)
    case Begin(w, kind, batch) =>
      if !Enabled(s, a) then s else
      Go(s, w, Looping(kind, seq(|batch|, i requires 0 <= i < |batch| && batch[i] in s.rows => s.rows[batch[i]])))
    case Claim(w, answer) => if Enabled(s, a) && AtRow(s, w) then AfterClaim(s, w, answer) else s
    case ReadFresh(w) => if Enabled(s, a) && AtRow(s, w) then AfterRead(s, w) else s
    case ReadThrows(w, error) => if Enabled(s, a) && AtRow(s, w) then Go(s, w, Abandon(At(s, w), error)) else s
    case Execute(w, sending) => if Enabled(s, a) && AtRow(s, w) then AfterExecute(s, w, sending) else s
    case Record(w) => if Enabled(s, a) && AtRow(s, w) then AfterRecord(s, w) else s
    case RefuseRecord(w) => if Enabled(s, a) && AtRow(s, w) then Go(s, w, Abandon(At(s, w), REFUSED)) else s
    case Stop(w) => if Enabled(s, a) then Go(s, w, Idle) else s
    case Publish(w, ok) =>
      if Enabled(s, a) && AtRow(s, w)
      then Go(s, w, if ok then NextRow(At(s, w)) else Abandon(At(s, w), "event bus")) else s
    case Fail(w) => if Enabled(s, a) && AtRow(s, w) then AfterFail(s, w) else s
    case Monitor(w, chain) =>
      if Enabled(s, a) && AtRow(s, w)
      then Go(Put(s, MonitorWrite(RowOf(s, w), At(s, w).queue[0], chain)), w, AfterUpdate(At(s, w), chain)) else s
    case Retry(w, routing) => if Enabled(s, a) && AtRow(s, w) then AfterRouting(s, w, routing) else s
  }

  /** The listener decides on the row its pass read, and its update falls on the row as it is now. */
  function MonitorWrite(row: Row, t: Row, answer: ChainAnswer): Row {
    Apply(row, MonitorPatch(t, answer))
  }

  function Run(s: World, actions: seq<Action>): World {
    if actions == [] then s else Next(Run(s, actions[..|actions| - 1]), actions[|actions| - 1])
  }

  predicate Quiet(s: World) {
    WellKeyed(s.rows) && s.locals == map[] && s.sent == [] && s.claims == []
  }

  // ----- what a period is -----

  /** The row waits to be claimed. */
  predicate Waits(rows: Table, id: string) {
    id in rows && (rows[id].status == RoutingActive || rows[id].status == Pending)
  }

  /** A router that throws has put the row back in waiting on the way, and the worker took it out again. */
  predicate WaitsInPassing(s: World, a: Action, id: string) {
    && a.Retry? && Enabled(s, a) && AtRow(s, a.w) && a.routing.RouterThrows? && a.routing.left.id == id
    && (a.routing.left.status == RoutingActive || a.routing.left.status == Pending) && !Waits(s.rows, id)
  }

  lemma PutCounts(s: World, row: Row, id: string)
    ensures PeriodOf(Put(s, row), id) - PeriodOf(s, id) ==
            if Waits(Put(s, row).rows, id) && !Waits(s.rows, id) then 1 else 0
    ensures Waits(Put(s, row).rows, id) <==>
            if row.id == id then row.status == RoutingActive || row.status == Pending else Waits(s.rows, id)
  {
  }

  lemma RetryCounts(s: World, a: Action, id: string)
    requires a.Retry?
    ensures var s' := Next(s, a);
            PeriodOf(s', id) - PeriodOf(s, id) ==
            if (Waits(s'.rows, id) && !Waits(s.rows, id)) || WaitsInPassing(s, a, id) then 1 else 0
  {
    hide Put, Waits;
    PutCounts(s, LeftBy(a.routing), id);
    if a.routing.RouterThrows? {
      PutCounts(Put(s, a.routing.left), RetryFailedRow(a.routing.left, a.routing.error), id);
    }
  }

  /** A row's period goes up by one exactly when a step makes it wait that did not wait before, if only in passing. */
  lemma PeriodsCountStays(s: World, a: Action, id: string)
    requires WellKeyed(s.rows)
    ensures var s' := Next(s, a);
            PeriodOf(s', id) - PeriodOf(s, id) ==
            if (Waits(s'.rows, id) && !Waits(s.rows, id)) || WaitsInPassing(s, a, id) then 1 else 0
  {
    hide MonitorWrite, EventLost, IsBatch, Put, Waits, Claimable, Broadcastable, SentRow, FailedRow, ClaimedRow,
      AfterRouting;
    match a {
      case External(_, row) => PutCounts(s, row, id);
      case Claim(w, answer) =>
        if AtRow(s, w) && answer.Wallet? {
          PutCounts(s, ClaimedRow(RowOf(s, w), answer.address), id);
        }
      case Record(w) =>
        if AtRow(s, w) && At(s, w).Recording? {
          PutCounts(s, SentRow(RowOf(s, w), At(s, w).hash, At(s, w).wallet), id);
        }
      case Fail(w) =>
        if AtRow(s, w) && At(s, w).Failing? {
          PutCounts(s, FailedRow(RowOf(s, w), At(s, w).queue[0], At(s, w).step, At(s, w).error), id);
        }
      case Monitor(w, chain) =>
        if AtRow(s, w) {
          PutCounts(s, MonitorWrite(RowOf(s, w), At(s, w).queue[0], chain), id);
        }
      case Retry(_, _) => RetryCounts(s, a, id);
      case _ =>
    }
  }

  // ----- one claim winner per period -----

  /** A claim on record is of an earlier period of its row, or of this one and the row has been taken out of it. */
  ghost predicate ClaimsSettled(s: World) {
    && (forall i :: 0 <= i < |s.claims| ==>
          var c := s.claims[i];
          && c.id in s.rows && c.period <= PeriodOf(s, c.id)
          && (Claimable(s.rows[c.id].status) ==> c.period < PeriodOf(s, c.id)))
    && (forall i, j :: 0 <= i < j < |s.claims| ==>
          !(s.claims[i].id == s.claims[j].id && s.claims[i].period == s.claims[j].period))
  }

  lemma PutKeepsClaims(s: World, row: Row)
    requires ClaimsSettled(s)
    ensures ClaimsSettled(Put(s, row))
  {
  }

  lemma ClaimStep(s: World, row: Row, address: string, w: nat)
    requires ClaimsSettled(s) && row.id in s.rows && s.rows[row.id] == row && Claimable(row.status)
    ensures var won := s.claims + [ClaimRecord(row.id, PeriodOf(s, row.id), w)];
            ClaimsSettled(Put(s, ClaimedRow(row, address)).(claims := won))
  {
    var s' := Put(s, ClaimedRow(row, address));
    assert s'.periods == s.periods;
  }

  lemma NextKeepsClaims(s: World, a: Action)
    requires ClaimsSettled(s) && WellKeyed(s.rows)
    ensures ClaimsSettled(Next(s, a)) && WellKeyed(Next(s, a).rows)
  {
    hide ClaimsSettled, MonitorPatch, EventLost, IsBatch;
    if a.External? {
      PutKeepsClaims(s, a.row);
    } else if Enabled(s, a) {
      if a.Begin? || a.Stop? {
        MoveKeepsClaims(s, Next(s, a));
      } else if AtRow(s, a.w) {
        StepKeepsClaims(s, a);
      }
    }
  }

  lemma MoveKeepsClaims(s: World, s': World)
    requires ClaimsSettled(s) && s' == s.(locals := s'.locals, sent := s'.sent)
    ensures ClaimsSettled(s')
  {
  }

  lemma StepKeepsClaims(s: World, a: Action)
    requires ClaimsSettled(s) && WellKeyed(s.rows)
    requires !a.External? && !a.Begin? && !a.Stop? && Enabled(s, a) && AtRow(s, a.w)
    ensures ClaimsSettled(Next(s, a)) && WellKeyed(Next(s, a).rows)
  {
    hide ClaimsSettled, MonitorPatch, EventLost, IsBatch;
    var l, row, s' := At(s, a.w), RowOf(s, a.w), Next(s, a);
    match a {
      case Claim(_, answer) =>
        if answer.Wallet? && Claimable(row.status) {
          ClaimStep(s, row, answer.address, a.w);
          MoveKeepsClaims(s'.(locals := s.locals), s');
        } else {
          MoveKeepsClaims(s, s');
        }
      case Record(_) =>
        PutKeepsClaims(s, SentRow(row, l.hash, l.wallet));
        MoveKeepsClaims(Put(s, SentRow(row, l.hash, l.wallet)), s');
      case Fail(_) =>
        PutKeepsClaims(s, FailedRow(row, l.queue[0], l.step, l.error));
        MoveKeepsClaims(Put(s, FailedRow(row, l.queue[0], l.step, l.error)), s');
      case Monitor(_, chain) =>
        PutKeepsClaims(s, MonitorWrite(row, l.queue[0], chain));
        MoveKeepsClaims(Put(s, MonitorWrite(row, l.queue[0], chain)), s');
      case Retry(_, routing) =>
        var routed := Put(s, LeftBy(routing));
        PutKeepsClaims(s, LeftBy(routing));
        if routing.RouterThrows? {
          PutKeepsClaims(routed, RetryFailedRow(routing.left, routing.error));
        }
        MoveKeepsClaims(s'.(locals := s.locals), s');
      case _ => MoveKeepsClaims(s, s');
    }
  }

  /**
    For any number of workers, any interleaving and any other writers: no two claims, by one worker
    or by two, are won on the same stay of a row in routing_active or pending.
  */
  lemma {:induction false} OneClaimPerPeriod(s: World, actions: seq<Action>)
    requires Quiet(s)
    ensures ClaimsSettled(Run(s, actions)) && WellKeyed(Run(s, actions).rows)
    ensures var claims := Run(s, actions).claims;
            forall i, j :: 0 <= i < j < |claims| && claims[i].id == claims[j].id ==>
              claims[i].period != claims[j].period
  {
    hide Next;
    if actions != [] {
      OneClaimPerPeriod(s, actions[..|actions| - 1]);
      NextKeepsClaims(Run(s, actions[..|actions| - 1]), actions[|actions| - 1]);
    }
  }

  // ----- at most one send per transaction, with one worker -----

  predicate WasSent(s: World, id: string) {
    exists i :: 0 <= i < |s.sent| && s.sent[i].id == id
  }

  predicate HasSentHash(s: World, row: Row) {
    row.txHash.Some? && SentRecord(row.id, row.txHash.value) in s.sent
  }

  /** A sent row that no pass sends again: it carries its hash or has been failed. */
  predicate Settled(s: World, row: Row) {
    !Broadcastable(row.status) && (HasSentHash(s, row) || row.status == FailedUnrecoverable)
  }

  /**
    The condition on other writers: a row that carries a hash and is past the statuses a worker
    sends from is not put back into them, and its hash is not touched; a failed row stays failed; and
    the step execution_successful is the worker's alone to write.
  */
  predicate RespectsSent(s: World, row: Row) {
    row.id in s.rows ==>
      var was := s.rows[row.id];
      && (was.txHash.Some? && !Broadcastable(was.status) ==>
            !Broadcastable(row.status) && row.txHash == was.txHash)
      && (was.status == FailedUnrecoverable ==> row.status == FailedUnrecoverable)
      && (row.step == ExecutionSucceeded ==> was.step == ExecutionSucceeded && row.txHash == was.txHash)
  }

  /** The worker's row has been sent and is not settled yet. */
  predicate SentUnsettled(s: World, w: nat) {
    AtRow(s, w) && WasSent(s, At(s, w).queue[0].id) && !Settled(s, RowOf(s, w))
  }

  /**
    Only worker 0 acts, other writers respect sent rows, and the worker does not stop between sending a
    row and settling it. The database may refuse the update after a send as long as it then takes the
    one that fails the row.
  */
  predicate SingleWorker(s: World, a: Action) {
    match a
    case External(_, row) => RespectsSent(s, row) && (row.id !in s.rows ==> row.step != ExecutionSucceeded)
    case Stop(w) => w == 0 && !SentUnsettled(s, 0)
    case Retry(w, routing) => w == 0 && LeftBy(routing).step != ExecutionSucceeded
    case _ => a.w == 0
  }

  predicate SingleWorkerRun(s: World, actions: seq<Action>) {
    actions != [] ==>
      var before := actions[..|actions| - 1];
      SingleWorkerRun(s, before) && SingleWorker(Run(s, before), actions[|actions| - 1])
  }

  predicate Sends(kind: PassKind) {
    kind == PendingQueue || kind == SignedQueue
  }

  /** The row may just have been sent: its record, or its failure, is the worker's next write. */
  predicate InFlight(s: World, id: string) {
    var l := At(s, 0);
    (l.Recording? || (l.Failing? && Sends(l.kind))) && HasRow(l) && l.queue[0].id == id
  }

  ghost predicate SentOnce(s: World) {
    && WellKeyed(s.rows)
    && (forall i, j :: 0 <= i < j < |s.sent| ==> s.sent[i].id != s.sent[j].id)
    && (forall i :: 0 <= i < |s.sent| ==> s.sent[i].id in s.rows && SentSettled(s, s.sent[i].id))
    && (forall id :: id in s.rows && s.rows[id].step == ExecutionSucceeded ==> HasSentHash(s, s.rows[id]))
    && LocalOk(s, At(s, 0))
  }

  predicate SentSettled(s: World, id: string)
    requires id in s.rows
  {
    !InFlight(s, id) ==> Settled(s, s.rows[id])
  }

  ghost predicate LocalOk(s: World, l: Local) {
    && (!l.Idle? ==> l.queue != [])
    && (!l.Idle? && l.kind == RetryQueue ==> forall i :: 0 <= i < |l.queue| ==> !WasSent(s, l.queue[i].id))
    && (!l.Idle? && l.kind == MonitorQueue ==>
          forall i :: 0 <= i < |l.queue| && WasSent(s, l.queue[i].id) ==> Hashed(s, l.queue[i].id))
    && (l.Failing? ==> l.step != ExecutionSucceeded)
    && (l.Reading? ==> Sends(l.kind))
    && (l.Executing? ==> Sends(l.kind) && HasRow(l) && !WasSent(s, l.queue[0].id))
    && (l.Recording? ==> Sends(l.kind) && HasRow(l) && SentRecord(l.queue[0].id, l.hash) in s.sent)
  }

  predicate Hashed(s: World, id: string) {
    id in s.rows && HasSentHash(s, s.rows[id])
  }

  /** Before anything is sent the invariant holds, whatever the table. */
  lemma QuietIsSentOnce(s: World)
    requires Quiet(s) && forall id :: id in s.rows ==> s.rows[id].step != ExecutionSucceeded
    ensures SentOnce(s)
  {
  }

  /** A write of a row whose own hash, status and step keep the invariant, with the worker at a given place after it. */
  lemma WriteKeeps(s: World, row: Row, l: Local)
    requires SentOnce(s) && !l.Recording? && LocalOk(s, l)
    requires forall id :: InFlight(s, id) ==> id == row.id
    requires WasSent(s, row.id) ==> Settled(s, row)
    requires WasSent(s, row.id) && !l.Idle? && l.kind == MonitorQueue ==> HasSentHash(s, row)
    requires row.step == ExecutionSucceeded ==> HasSentHash(s, row)
    ensures SentOnce(Go(Put(s, row), 0, l))
  {
    var s' := Go(Put(s, row), 0, l);
    forall i | 0 <= i < |s'.sent| ensures s'.sent[i].id in s'.rows && SentSettled(s', s'.sent[i].id) {
      assert SentSettled(s, s.sent[i].id);
      if s.sent[i].id == row.id {
        assert WasSent(s, row.id);
      }
    }
    SameSent(s, s', l);
  }

  lemma SameSent(s: World, s': World, l: Local)
    requires s.sent == s'.sent && LocalOk(s, l)
    requires !l.Idle? && l.kind == MonitorQueue ==> forall id :: WasSent(s, id) && Hashed(s, id) ==> Hashed(s', id)
    ensures LocalOk(s', l)
  {
    if !l.Idle? {
      forall i | 0 <= i < |l.queue| ensures WasSent(s, l.queue[i].id) == WasSent(s', l.queue[i].id) { }
    }
  }

  /** The worker moves without writing; a row that was in flight either still is or is settled. */
  lemma MoveKeeps(s: World, l: Local)
    requires SentOnce(s) && LocalOk(s, l)
    requires forall id :: InFlight(s, id) && WasSent(s, id) ==>
               InFlight(Go(s, 0, l), id) || (id in s.rows && Settled(s, s.rows[id]))
    ensures SentOnce(Go(s, 0, l))
  {
    var s' := Go(s, 0, l);
    forall i | 0 <= i < |s'.sent| ensures s'.sent[i].id in s'.rows && SentSettled(s', s'.sent[i].id) {
      assert SentSettled(s, s.sent[i].id);
      assert WasSent(s, s.sent[i].id);
    }
    SameSent(s, s', l);
  }

  lemma ExternalKeeps(s: World, row: Row)
    requires SentOnce(s) && RespectsSent(s, row) && (row.id !in s.rows ==> row.step != ExecutionSucceeded)
    ensures SentOnce(Put(s, row))
  {
    var s' := Put(s, row);
    assert At(s', 0) == At(s, 0);
    forall i | 0 <= i < |s'.sent| ensures s'.sent[i].id in s'.rows && SentSettled(s', s'.sent[i].id) {
      assert SentSettled(s, s.sent[i].id);
      assert InFlight(s', s.sent[i].id) == InFlight(s, s.sent[i].id);
    }
    if !At(s, 0).Idle? && At(s, 0).kind == MonitorQueue {
      forall id | WasSent(s, id) && Hashed(s, id) ensures Hashed(s', id) {
        SentRowSettled(s, id);
      }
    }
    SameSent(s, s', At(s, 0));
  }

  /** A sent row is not one a worker would send again, unless its record is still to be written. */
  lemma SentRowSettled(s: World, id: string)
    requires SentOnce(s) && WasSent(s, id) && !InFlight(s, id)
    ensures id in s.rows && Settled(s, s.rows[id])
  {
    var i :| 0 <= i < |s.sent| && s.sent[i].id == id;
    assert SentSettled(s, s.sent[i].id);
  }

  lemma BeginKeeps(s: World, kind: PassKind, batch: seq<string>)
    requires SentOnce(s) && Enabled(s, Begin(0, kind, batch))
    ensures SentOnce(Next(s, Begin(0, kind, batch)))
  {
    var queue := seq(|batch|, i requires 0 <= i < |batch| && batch[i] in s.rows => s.rows[batch[i]]);
    var l := Looping(kind, queue);
    forall i | 0 <= i < |queue| && WasSent(s, queue[i].id) ensures kind != RetryQueue
      ensures kind == MonitorQueue ==> Hashed(s, queue[i].id)
    {
      assert Selects(kind, s.rows[batch[i]]);
      SentRowSettled(s, batch[i]);
    }
    MoveKeeps(s, l);
  }

  lemma ExecuteKeeps(s: World, hash: string, after: Local)
    requires SentOnce(s) && At(s, 0).Executing? && At(s, 0).queue[0].id in s.rows
    requires var l := At(s, 0);
             || (after.Recording? && after.kind == l.kind && after.queue == l.queue && after.hash == hash)
             || (after.Failing? && after.kind == l.kind && after.queue == l.queue && after.step != ExecutionSucceeded)
    ensures SentOnce(Go(s.(sent := s.sent + [SentRecord(At(s, 0).queue[0].id, hash)]), 0, after))
  {
    var id := At(s, 0).queue[0].id;
    var s' := Go(s.(sent := s.sent + [SentRecord(id, hash)]), 0, after);
    assert s'.sent[|s.sent|] == SentRecord(id, hash);
    forall i | 0 <= i < |s'.sent| ensures s'.sent[i].id in s'.rows && SentSettled(s', s'.sent[i].id) {
      if i < |s.sent| {
        assert SentSettled(s, s.sent[i].id);
      } else {
        assert InFlight(s', id);
      }
    }
    assert !WasSent(s, id) && forall i :: 0 <= i < |s.sent| ==> s.sent[i].id != id;
  }

  lemma NextRowOk(s: World, l: Local)
    requires LocalOk(s, l) && HasRow(l)
    ensures LocalOk(s, NextRow(l))
  {
  }

  lemma PatchedRow(row: Row, t: Row, answer: ChainAnswer)
    ensures var r := MonitorWrite(row, t, answer);
            && r.id == row.id && r.txHash == row.txHash
            && (r.status == row.status || !Broadcastable(r.status))
            && (r.step == row.step || r.step != ExecutionSucceeded)
  {
    hide NeedsPayout;
  }

  lemma NextKeepsSentOnce(s: World, a: Action)
    requires SentOnce(s) && SingleWorker(s, a)
    ensures SentOnce(Next(s, a))
  {
    hide SentOnce, MonitorPatch, EventLost, LocalOk, IsBatch, RespectsSent, SentUnsettled;
    if a.External? {
      ExternalKeeps(s, a.row);
    } else if Enabled(s, a) {
      if a.Begin? {
        BeginKeeps(s, a.kind, a.batch);
      } else if a.Stop? {
        StopKeeps(s);
      } else if AtRow(s, 0) {
        StepKeepsSentOnce(s, a);
      }
    }
  }

  lemma StopKeeps(s: World)
    requires SentOnce(s) && !SentUnsettled(s, 0)
    ensures SentOnce(Go(s, 0, Idle))
  {
    forall id | InFlight(s, id) && WasSent(s, id) ensures id in s.rows && Settled(s, s.rows[id]) {
      var i :| 0 <= i < |s.sent| && s.sent[i].id == id;
      assert s.sent[i].id in s.rows;
    }
    MoveKeeps(s, Idle);
  }

  lemma Facts(s: World)
    requires SentOnce(s) && AtRow(s, 0)
    ensures var row := RowOf(s, 0);
            && LocalOk(s, At(s, 0)) && LocalOk(s, NextRow(At(s, 0)))
            && row.id == At(s, 0).queue[0].id
            && (row.step == ExecutionSucceeded ==> HasSentHash(s, row))
            && (WasSent(s, row.id) && !InFlight(s, row.id) ==> Settled(s, row))
            && (forall id :: InFlight(s, id) ==> id == row.id)
  {
    NextRowOk(s, At(s, 0));
    if WasSent(s, RowOf(s, 0).id) && !InFlight(s, RowOf(s, 0).id) {
      SentRowSettled(s, RowOf(s, 0).id);
    }
  }

  lemma StepKeepsSentOnce(s: World, a: Action)
    requires SentOnce(s) && SingleWorker(s, a) && !a.External? && !a.Begin? && !a.Stop?
    requires Enabled(s, a) && AtRow(s, 0)
    ensures SentOnce(Next(s, a))
  {
    hide SentOnce, MonitorPatch, EventLost, RespectsSent, IsBatch;
    var l, row := At(s, 0), RowOf(s, 0);
    Facts(s);
    if a.Claim? && a.answer.Wallet? && Claimable(row.status) {
      ClaimKeeps(s, a.answer);
    } else if a.Execute? && !l.row.kind.OtherKind? && LiveHash(a.sending).Some? {
      ExecuteKeeps(s, LiveHash(a.sending).value, At(Next(s, a), 0));
    } else if a.Record? {
      WriteKeeps(s, SentRow(row, l.hash, l.wallet), Publishing(l.kind, l.queue));
    } else if a.Fail? {
      FailKeeps(s);
    } else if a.Monitor? {
      MonitorKeeps(s, a.chain);
    } else if a.Retry? {
      RetryKeeps(s, a.routing);
    } else {
      MoveKeeps(s, At(Next(s, a), 0));
    }
  }

  lemma ClaimKeeps(s: World, answer: ClaimAnswer)
    requires SentOnce(s) && AtRow(s, 0) && Enabled(s, Claim(0, answer))
    requires answer.Wallet? && Claimable(RowOf(s, 0).status)
    ensures SentOnce(AfterClaim(s, 0, answer))
  {
    hide SentOnce;
    var l, row := At(s, 0), RowOf(s, 0);
    Facts(s);
    var after := if answer.published then Reading(l.kind, l.queue) else Abandon(l, "event bus");
    WriteKeeps(s, ClaimedRow(row, answer.address), after);
    ClaimsApart(Go(Put(s, ClaimedRow(row, answer.address)), 0, after), AfterClaim(s, 0, answer).claims);
  }

  lemma FailKeeps(s: World)
    requires SentOnce(s) && AtRow(s, 0) && At(s, 0).Failing?
    ensures SentOnce(AfterFail(s, 0))
  {
    hide SentOnce;
    var l, row := At(s, 0), RowOf(s, 0);
    Facts(s);
    WriteKeeps(s, FailedRow(row, l.queue[0], l.step, l.error), NextRow(l));
  }

  lemma MonitorKeeps(s: World, chain: ChainAnswer)
    requires SentOnce(s) && AtRow(s, 0) && At(s, 0).Looping? && At(s, 0).kind == MonitorQueue
    ensures SentOnce(Next(s, Monitor(0, chain)))
  {
    hide SentOnce, MonitorPatch, EventLost;
    var l, row := At(s, 0), RowOf(s, 0);
    Facts(s);
    PatchedRow(row, l.queue[0], chain);
    WriteKeeps(s, MonitorWrite(row, l.queue[0], chain), AfterUpdate(l, chain));
  }

  lemma RetryKeeps(s: World, routing: Routing)
    requires SentOnce(s) && AtRow(s, 0) && At(s, 0).Looping? && At(s, 0).kind == RetryQueue
    requires LeftBy(routing).id == At(s, 0).queue[0].id && LeftBy(routing).step != ExecutionSucceeded
    ensures SentOnce(AfterRouting(s, 0, routing))
  {
    hide SentOnce;
    var l, left := At(s, 0), LeftBy(routing);
    Facts(s);
    if routing.Routed? {
      WriteKeeps(s, left, NextRow(l));
    } else {
      var s1 := Go(Put(s, left), 0, l);
      WriteKeeps(s, left, l);
      SameSent(s, s1, NextRow(l));
      assert WasSent(s1, left.id) == WasSent(s, left.id);
      WriteKeeps(s1, RetryFailedRow(left, routing.error), NextRow(l));
      assert Go(Put(s1, RetryFailedRow(left, routing.error)), 0, NextRow(l)) == AfterRouting(s, 0, routing);
    }
  }

  lemma ClaimsApart(s: World, claims: seq<ClaimRecord>)
    requires SentOnce(s)
    ensures SentOnce(s.(claims := claims))
  {
    var s' := s.(claims := claims);
    assert At(s', 0) == At(s, 0);
    forall i | 0 <= i < |s'.sent| ensures s'.sent[i].id in s'.rows && SentSettled(s', s'.sent[i].id) {
      assert SentSettled(s, s.sent[i].id);
    }
    SameSent(s, s', At(s, 0));
  }

  /**
    With one worker that never stops between sending a row and settling it, and other writers that
    respect sent rows: every transaction is put on the chain at most once, and every row marked
    execution_successful carries the hash that was broadcast for that very row. Lost events, refused
    updates, sends that throw after reaching the chain and a worker that stops anywhere else do not
    break it.
  */
  lemma {:induction false} SingleWorkerSendsOnce(s: World, actions: seq<Action>)
    requires SentOnce(s) && SingleWorkerRun(s, actions)
    ensures var s' := Run(s, actions);
            && SentOnce(s')
            && (forall i, j :: 0 <= i < j < |s'.sent| ==> s'.sent[i].id != s'.sent[j].id)
            && (forall id :: id in s'.rows && s'.rows[id].step == ExecutionSucceeded ==>
                  s'.rows[id].txHash.Some? && SentRecord(id, s'.rows[id].txHash.value) in s'.sent)
  {
    hide Next, SingleWorker, SentSettled, LocalOk;
    if actions != [] {
      SingleWorkerSendsOnce(s, actions[..|actions| - 1]);
      NextKeepsSentOnce(Run(s, actions[..|actions| - 1]), actions[|actions| - 1]);
    }
  }

  // ----- where it stops being true -----

  lemma RunSnoc(s: World, actions: seq<Action>, a: Action)
    ensures Run(s, actions + [a]) == Next(Run(s, actions), a)
  {
    assert (actions + [a])[..|actions|] == actions;
  }

  predicate JustQueued(s: World, id: string) {
    && id in s.rows && s.rows[id].id == id && SelectsPending(s.rows[id])
    && At(s, 0).Idle? && At(s, 1).Idle? && s.sent == []
  }

  function ClaimAndRead(id: string): seq<Action> {
    [Begin(0, PendingQueue, [id]), Claim(0, Wallet("hot", true)), ReadFresh(0)]
  }

  function ClaimAndSend(id: string): seq<Action> {
    ClaimAndRead(id) + [Execute(0, Sent("0x1", "hot", true, true))]
  }

  /** The world once worker 0 has claimed the row and read it again. */
  lemma AfterClaimAndRead(s: World, id: string)
    requires JustQueued(s, id)
    ensures var s' := Run(s, ClaimAndRead(id));
            var claimed := ClaimedRow(s.rows[id], "hot");
            && s'.rows == s.rows[id := claimed] && s'.sent == []
            && s'.locals == s.locals[0 := Executing(PendingQueue, [s.rows[id]], claimed)]
  {
    hide Next, Run, ClaimedRow;
    var row := s.rows[id];
    var claim := Claim(0, Wallet("hot", true));
    BeginOne(s, 0, PendingQueue, id);
    ClaimOne(Go(s, 0, Looping(PendingQueue, [row])), id);
    CanSendClaimed(row);
    ReadOne(Next(Go(s, 0, Looping(PendingQueue, [row])), claim), 0, [row], PendingQueue);
    RunThree(s, Begin(0, PendingQueue, [id]), claim, ReadFresh(0));
  }

  /** The world once worker 0 has claimed the row and put its transaction on the chain. */
  lemma AfterClaimAndSend(s: World, id: string)
    requires JustQueued(s, id)
    ensures var s' := Run(s, ClaimAndSend(id));
            var claimed := ClaimedRow(s.rows[id], "hot");
            && s'.rows == s.rows[id := claimed]
            && s'.sent == [SentRecord(id, "0x1")]
            && s'.locals == s.locals[0 := Recording(PendingQueue, [s.rows[id]], claimed, "0x1", "hot")]
  {
    hide Next, Run, ClaimedRow;
    var execute := Execute(0, Sent("0x1", "hot", true, true));
    AfterClaimAndRead(s, id);
    CanSendClaimed(s.rows[id]);
    RunSnoc(s, ClaimAndRead(id), execute);
    ExecuteOne(Run(s, ClaimAndRead(id)), 0, [s.rows[id]], PendingQueue, Sent("0x1", "hot", true, true));
  }

  lemma ReadOne(s: World, w: nat, queue: seq<Row>, kind: PassKind)
    requires queue != [] && queue[0].id in s.rows && Broadcastable(s.rows[queue[0].id].status)
    requires At(s, w) == Reading(kind, queue) || (At(s, w) == Looping(kind, queue) && kind == SignedQueue)
    ensures Next(s, ReadFresh(w)) == Go(s, w, Executing(kind, queue, s.rows[queue[0].id]))
  {
  }

  lemma ExecuteOne(s: World, w: nat, queue: seq<Row>, kind: PassKind, sending: Sending)
    requires queue != [] && queue[0].id in s.rows && !s.rows[queue[0].id].kind.OtherKind? && LiveHash(sending).Some?
    requires At(s, w) == Executing(kind, queue, s.rows[queue[0].id])
    ensures var s', row := Next(s, Execute(w, sending)), s.rows[queue[0].id];
            && s'.rows == s.rows && s'.sent == s.sent + [SentRecord(queue[0].id, LiveHash(sending).value)]
            && s'.locals == s.locals[w := match sending
                                          case Sent(hash, wallet, _, _) => Recording(kind, queue, row, hash, wallet)
                                          case SendThrows(error, _) => Failing(kind, queue, ExecutionFailed, error)]
  {
  }

  lemma CanSendClaimed(row: Row)
    requires SelectsPending(row)
    ensures var r := ClaimedRow(row, "hot");
            Broadcastable(r.status) && !r.kind.OtherKind? && r.id == row.id && SelectsSigned(r)
  {
  }

  lemma RunThree(s: World, a: Action, b: Action, c: Action)
    ensures Run(s, [a, b, c]) == Next(Next(Next(s, a), b), c)
  {
    hide Next;
    assert Run(s, []) == s;
    RunSnoc(s, [], a);
    RunSnoc(s, [a], b);
    RunSnoc(s, [a, b], c);
    assert [] + [a] == [a] && [a] + [b] == [a, b] && [a, b] + [c] == [a, b, c];
  }

  lemma BeginOne(s: World, w: nat, kind: PassKind, id: string)
    requires id in s.rows && Selects(kind, s.rows[id]) && At(s, w).Idle?
    ensures Next(s, Begin(w, kind, [id])) == Go(s, w, Looping(kind, [s.rows[id]]))
  {
    assert seq(|[id]|, i requires 0 <= i < |[id]| && [id][i] in s.rows => s.rows[[id][i]]) == [s.rows[id]];
  }

  lemma ClaimOne(s: World, id: string)
    requires id in s.rows && s.rows[id].id == id && Claimable(s.rows[id].status)
    requires At(s, 0) == Looping(PendingQueue, [s.rows[id]])
    ensures var s' := Next(s, Claim(0, Wallet("hot", true)));
            && s'.rows == s.rows[id := ClaimedRow(s.rows[id], "hot")] && s'.sent == s.sent
            && s'.locals == s.locals[0 := Reading(PendingQueue, [s.rows[id]])]
  {
  }

  lemma SendFromSignedQueue(s: World, id: string, w: nat)
    requires id in s.rows && s.rows[id].id == id && SelectsSigned(s.rows[id]) && At(s, w).Idle?
    ensures var again := [Begin(w, SignedQueue, [id]), ReadFresh(w), Execute(w, Sent("0x2", "hot", true, true))];
            Run(s, again).sent == s.sent + [SentRecord(id, "0x2")]
  {
    var row := s.rows[id];
    var sending := Sent("0x2", "hot", true, true);
    hide Next, Run;
    BeginOne(s, w, SignedQueue, id);
    var s1 := Go(s, w, Looping(SignedQueue, [row]));
    ReadOne(s1, w, [row], SignedQueue);
    ExecuteOne(Go(s1, w, Executing(SignedQueue, [row], row)), w, [row], SignedQueue, sending);
    RunThree(s, Begin(w, SignedQueue, [id]), ReadFresh(w), Execute(w, sending));
  }

  lemma {:induction false} RunConcat(s: World, first: seq<Action>, then_: seq<Action>)
    ensures Run(s, first + then_) == Run(Run(s, first), then_)
  {
    hide Next;
    if then_ == [] {
      assert first + then_ == first;
    } else {
      RunConcat(s, first, then_[..|then_| - 1]);
      assert (first + then_)[..|first + then_| - 1] == first + then_[..|then_| - 1];
    }
  }

  /**
    A second worker breaks it: claims are exclusive, but the signed queue takes rows another worker
    has claimed and is still sending, and no claim guards it. One claim, two sends.
  */
  lemma TwoWorkersSendTwice(s: World, id: string)
    requires JustQueued(s, id)
    ensures var actions := ClaimAndSend(id)
                           + [Begin(1, SignedQueue, [id]), ReadFresh(1), Execute(1, Sent("0x2", "hot", true, true))];
            Run(s, actions).sent == [SentRecord(id, "0x1"), SentRecord(id, "0x2")]
  {
    hide Run, Next;
    var again := [Begin(1, SignedQueue, [id]), ReadFresh(1), Execute(1, Sent("0x2", "hot", true, true))];
    AfterClaimAndSend(s, id);
    RunConcat(s, ClaimAndSend(id), again);
    SendFromSignedQueue(Run(s, ClaimAndSend(id)), id, 1);
  }

  /**
    So does a single worker that stops after a send without recording it, because it crashes or because
    both its update and failTransaction's are refused: its own signed queue sends again.
  */
  lemma LostRecordSendsTwice(s: World, id: string, refused: bool)
    requires JustQueued(s, id)
    ensures var actions := ClaimAndSend(id) + (if refused then [RefuseRecord(0), Stop(0)] else [Stop(0)])
                           + [Begin(0, SignedQueue, [id]), ReadFresh(0), Execute(0, Sent("0x2", "hot", true, true))];
            Run(s, actions).sent == [SentRecord(id, "0x1"), SentRecord(id, "0x2")]
  {
    hide Run;
    var again := [Begin(0, SignedQueue, [id]), ReadFresh(0), Execute(0, Sent("0x2", "hot", true, true))];
    var lost := if refused then [RefuseRecord(0), Stop(0)] else [Stop(0)];
    AfterClaimAndSend(s, id);
    RunConcat(s, ClaimAndSend(id), lost);
    StoppedUnrecorded(Run(s, ClaimAndSend(id)), refused);
    RunConcat(s, ClaimAndSend(id) + lost, again);
    SendFromSignedQueue(Run(s, ClaimAndSend(id) + lost), id, 0);
  }

  /** And one whose send throws although the node took it, if it stops before it fails the row. */
  lemma ThrownSendSendsTwice(s: World, id: string, error: string)
    requires JustQueued(s, id)
    ensures var actions := ClaimAndRead(id) + [Execute(0, SendThrows(error, Some("0x1"))), Stop(0)]
                           + [Begin(0, SignedQueue, [id]), ReadFresh(0), Execute(0, Sent("0x2", "hot", true, true))];
            Run(s, actions).sent == [SentRecord(id, "0x1"), SentRecord(id, "0x2")]
  {
    hide Run, Next, ClaimedRow;
    var sending := SendThrows(error, Some("0x1"));
    var again := [Begin(0, SignedQueue, [id]), ReadFresh(0), Execute(0, Sent("0x2", "hot", true, true))];
    AfterClaimAndRead(s, id);
    CanSendClaimed(s.rows[id]);
    var sent := ClaimAndRead(id) + [Execute(0, sending)];
    RunSnoc(s, ClaimAndRead(id), Execute(0, sending));
    ExecuteOne(Run(s, ClaimAndRead(id)), 0, [s.rows[id]], PendingQueue, sending);
    RunSnoc(s, sent, Stop(0));
    Stopped(Run(s, sent));
    assert sent + [Stop(0)] == ClaimAndRead(id) + [Execute(0, sending), Stop(0)];
    RunConcat(s, sent + [Stop(0)], again);
    SendFromSignedQueue(Run(s, sent + [Stop(0)]), id, 0);
  }

  lemma Stopped(s: World)
    requires !At(s, 0).Idle?
    ensures Next(s, Stop(0)) == Go(s, 0, Idle)
  {
  }

  lemma StoppedUnrecorded(s: World, refused: bool)
    requires At(s, 0).Recording?
    ensures var s' := Run(s, if refused then [RefuseRecord(0), Stop(0)] else [Stop(0)]);
            s'.rows == s.rows && s'.sent == s.sent && At(s', 0).Idle?
  {
    assert [Stop(0)][..0] == [] && [RefuseRecord(0), Stop(0)][..1] == [RefuseRecord(0)];
    assert [RefuseRecord(0)][..0] == [];
    assert Run(s, []) == s;
    if refused {
      assert Run(s, [RefuseRecord(0)]) == Next(s, RefuseRecord(0));
    }
  }

  /** If only the first of the two updates is refused, the row is failed while its transaction is live. */
  lemma RefusedRecordFailsLiveRow(s: World, id: string)
    requires JustQueued(s, id)
    ensures var s' := Run(s, ClaimAndSend(id) + [RefuseRecord(0), Fail(0)]);
            && s'.sent == [SentRecord(id, "0x1")] && At(s', 0).Idle?
            && id in s'.rows && s'.rows[id].status == FailedUnrecoverable && s'.rows[id].txHash == s.rows[id].txHash
  {
    hide Run, Next, ClaimedRow;
    var refuse, fail := RefuseRecord(0), Fail(0);
    AfterClaimAndSend(s, id);
    var sent := Run(s, ClaimAndSend(id));
    RunSnoc(s, ClaimAndSend(id), refuse);
    RunSnoc(s, ClaimAndSend(id) + [refuse], fail);
    assert ClaimAndSend(id) + [refuse] + [fail] == ClaimAndSend(id) + [refuse, fail];
    ClaimedShape(s.rows[id]);
    RefusedThenFailed(sent, id);
  }

  lemma ClaimedShape(row: Row)
    ensures ClaimedRow(row, "hot").id == row.id && ClaimedRow(row, "hot").txHash == row.txHash
  {
  }

  lemma RefusedThenFailed(s: World, id: string)
    requires At(s, 0).Recording? && AtRow(s, 0) && At(s, 0).queue[0].id == id && |At(s, 0).queue| == 1
    requires s.rows[id].id == id
    ensures var s' := Next(Next(s, RefuseRecord(0)), Fail(0));
            && s'.sent == s.sent && At(s', 0).Idle? && id in s'.rows
            && s'.rows[id].status == FailedUnrecoverable && s'.rows[id].txHash == s.rows[id].txHash
  {
  }

  /**
    Two workers also break the finality of failed_unrecoverable, which holds as long as passes do not
    overlap: a listener that answers for a row as its pass read it brings back a row failed meanwhile.
  */
  lemma StaleAnswerRevivesFailed(s: World, id: string, error: string)
    requires id in s.rows && s.rows[id].id == id && SelectsMonitor(s.rows[id]) && !NeedsPayout(s.rows[id])
    requires At(s, 0).Idle? && At(s, 1).Idle?
    ensures var begin1, begin0 := Begin(1, MonitorQueue, [id]), Begin(0, MonitorQueue, [id]);
            var failed := Run(s, [begin1, begin0, Monitor(0, LookupThrows(error))]);
            && id in failed.rows && failed.rows[id].status == FailedUnrecoverable
            && var final := Mined("finalized", FINALITY, PayoutThrows("", false), true, true);
               Next(failed, Monitor(1, final)).rows[id].status == SettlementConfirmed
  {
    hide Run, Next;
    var row := s.rows[id];
    var begin1, begin0 := Begin(1, MonitorQueue, [id]), Begin(0, MonitorQueue, [id]);
    RunThree(s, begin1, begin0, Monitor(0, LookupThrows(error)));
    BeginOne(s, 1, MonitorQueue, id);
    var s1 := Go(s, 1, Looping(MonitorQueue, [row]));
    BeginOne(s1, 0, MonitorQueue, id);
    FailedThenSettled(Go(s1, 0, Looping(MonitorQueue, [row])), id, error);
  }

  lemma FailedThenSettled(s: World, id: string, error: string)
    requires id in s.rows && s.rows[id].id == id && !NeedsPayout(s.rows[id])
    requires At(s, 0) == At(s, 1) == Looping(MonitorQueue, [s.rows[id]])
    ensures var failed := Next(s, Monitor(0, LookupThrows(error)));
            && id in failed.rows && failed.rows[id].status == FailedUnrecoverable
            && var final := Mined("finalized", FINALITY, PayoutThrows("", false), true, true);
               Next(failed, Monitor(1, final)).rows[id].status == SettlementConfirmed
  {
    hide NeedsPayout, Truthy;
  }
}
