/**
  The two models of the worker agree (workers/transactionWorker.js): a pass whose steps nobody
  interrupts leaves the table that the pass as one loop leaves.
*/
module WorkerPasses {
  import opened Batches
  import opened TransactionWorker
  import opened WorkerInterleaving

  function KindOf(p: Pass): PassKind {
    match p
    case PendingPass(_, _, _) => PendingQueue
    case SignedPass(_, _) => SignedQueue
    case MonitorPass(_, _) => MonitorQueue
    case RetryPass(_, _) => RetryQueue
  }

  /** What the pass as one loop makes of a row. */
  function AfterRow(p: Pass, row: Row): Row {
    match p
    case PendingPass(_, claims, sendings) => AfterPending(row, claims(row.id), sendings(row.id))
    case SignedPass(_, sendings) => AfterBroadcast(row, row, sendings(row.id))
    case MonitorPass(_, answers) => AfterMonitor(row, answers(row.id))
    case RetryPass(_, routings) => AfterRetry(row, routings(row.id))
  }

  /** broadcastTransaction and what follows it; a step that is not due when it comes up does nothing. */
  function SendSteps(w: nat, sending: Sending): seq<Action> {
    [ReadFresh(w), Execute(w, sending), RecordStep(w, sending),
     Publish(w, sending.Sent? && sending.published), Fail(w)]
  }

  function RecordStep(w: nat, sending: Sending): Action {
    if sending.Sent? && !sending.recorded then RefuseRecord(w) else Record(w)
  }

  function RowSteps(p: Pass, w: nat, id: string): seq<Action> {
    match p
    case PendingPass(_, claims, sendings) => [Claim(w, claims(id))] + SendSteps(w, sendings(id))
    case SignedPass(_, sendings) => SendSteps(w, sendings(id))
    case MonitorPass(_, answers) => [Monitor(w, answers(id)), Fail(w)]
    case RetryPass(_, routings) => [Retry(w, routings(id))]
  }

  function PassSteps(p: Pass, w: nat, ids: seq<string>): seq<Action> {
    if ids == [] then [] else RowSteps(p, w, ids[0]) + PassSteps(p, w, ids[1..])
  }

  lemma RunOne(s: World, a: Action)
    ensures Run(s, [a]) == Next(s, a)
  {
    assert [a][..0] == [];
  }

  lemma RunTwo(s: World, a: Action, b: Action)
    ensures Run(s, [a, b]) == Next(Next(s, a), b)
  {
    hide Next, Run;
    RunOne(s, a);
    RunSnoc(s, [a], b);
    assert [a] + [b] == [a, b];
  }

  lemma RunFive(s: World, a: Action, b: Action, c: Action, d: Action, e: Action)
    ensures Run(s, [a, b, c, d, e]) == Next(Next(Next(Next(Next(s, a), b), c), d), e)
  {
    hide Next, Run;
    RunThree(s, a, b, c);
    RunSnoc(s, [a, b, c], d);
    RunSnoc(s, [a, b, c, d], e);
    assert [a, b, c] + [d] == [a, b, c, d] && [a, b, c, d] + [e] == [a, b, c, d, e];
  }

  /** Worker w has done with the row `id`: it holds `row` now, no other row has changed, and w is at the next one. */
  predicate RowDone(s: World, s': World, w: nat, id: string, row: Row, next: Local) {
    s'.rows == s.rows[id := row] && At(s', w) == next
  }

  lemma Then(s: World, t: World, u: World, w: nat, id: string, first: Row, mid: Local, row: Row, next: Local)
    requires RowDone(s, t, w, id, first, mid) && RowDone(t, u, w, id, row, next)
    ensures RowDone(s, u, w, id, row, next)
  {
  }

  /** The worker has this row in hand, as it is in the table. */
  predicate InHand(s: World, w: nat, id: string) {
    AtRow(s, w) && At(s, w).queue[0].id == id && s.rows[id].id == id
  }

  lemma FromFailing(s: World, w: nat, id: string)
    requires InHand(s, w, id) && At(s, w).Failing?
    ensures var l := At(s, w);
            RowDone(s, Next(s, Fail(w)), w, id, FailedRow(s.rows[id], l.queue[0], l.step, l.error), NextRow(l))
  {
  }

  /** A step that is not due does nothing. */
  lemma NotDue(s: World, w: nat, sending: Sending, ok: bool)
    ensures !At(s, w).Reading? && !(At(s, w).Looping? && At(s, w).kind == SignedQueue) ==> Next(s, ReadFresh(w)) == s
    ensures !At(s, w).Executing? ==> Next(s, Execute(w, sending)) == s
    ensures !At(s, w).Recording? ==> Next(s, RecordStep(w, sending)) == s
    ensures !At(s, w).Publishing? ==> Next(s, Publish(w, ok)) == s
    ensures !At(s, w).Failing? ==> Next(s, Fail(w)) == s
  {
  }

  lemma FromPublishing(s: World, w: nat, id: string, ok: bool, sending: Sending)
    requires InHand(s, w, id) && At(s, w).Publishing?
    ensures var l, row := At(s, w), s.rows[id];
            RowDone(s, Next(Next(s, Publish(w, ok)), Fail(w)), w, id,
                    if ok then row else FailedRow(row, l.queue[0], ExecutionFailed, "event bus"), NextRow(l))
  {
    hide FailedRow;
    var t := Next(s, Publish(w, ok));
    if ok {
      NotDue(t, w, sending, ok);
    } else {
      FromFailing(t, w, id);
    }
  }

  /** What becomes of a row that has just been sent. */
  function AfterSent(row: Row, snapshot: Row, sending: Sending): Row
    requires sending.Sent?
  {
    var sent := SentRow(row, sending.hash, sending.wallet);
    if !sending.recorded then FailedRow(row, snapshot, ExecutionFailed, REFUSED)
    else if sending.published then sent
    else FailedRow(sent, snapshot, ExecutionFailed, "event bus")
  }

  lemma FromRecording(s: World, w: nat, id: string, sending: Sending)
    requires InHand(s, w, id) && At(s, w).Recording? && sending.Sent?
    requires At(s, w).hash == sending.hash && At(s, w).wallet == sending.wallet
    ensures var l := At(s, w);
            RowDone(s, Next(Next(Next(s, RecordStep(w, sending)), Publish(w, sending.published)), Fail(w)), w, id,
                    AfterSent(s.rows[id], l.queue[0], sending), NextRow(l))
  {
    hide FailedRow;
    var l, t := At(s, w), Next(s, RecordStep(w, sending));
    if sending.recorded {
      FromPublishing(t, w, id, sending.published, sending);
    } else {
      NotDue(t, w, sending, sending.published);
      FromFailing(t, w, id);
    }
    Then(s, t, Next(Next(t, Publish(w, sending.published)), Fail(w)), w, id, t.rows[id], At(t, w),
         AfterSent(s.rows[id], l.queue[0], sending), NextRow(l));
  }

  lemma FromExecuting(s: World, w: nat, id: string, sending: Sending)
    requires InHand(s, w, id) && At(s, w).Executing? && At(s, w).row == s.rows[id] && Broadcastable(s.rows[id].status)
    ensures var ok := sending.Sent? && sending.published;
            var recorded := Next(Next(s, Execute(w, sending)), RecordStep(w, sending));
            RowDone(s, Next(Next(recorded, Publish(w, ok)), Fail(w)), w, id,
                    AfterBroadcast(s.rows[id], At(s, w).queue[0], sending), NextRow(At(s, w)))
  {
    hide FailedRow, SentRow, Broadcastable, RowDone, RecordStep;
    var ok, t := sending.Sent? && sending.published, Next(s, Execute(w, sending));
    if t.locals[w].Recording? {
      FromRecording(t, w, id, sending);
    } else {
      NotDue(t, w, sending, ok);
      FromFailing(t, w, id);
    }
    SameRows(s, t, Next(Next(Next(t, RecordStep(w, sending)), Publish(w, ok)), Fail(w)), w, id,
             AfterBroadcast(s.rows[id], At(s, w).queue[0], sending), NextRow(At(s, w)));
  }

  lemma SameRows(s: World, t: World, u: World, w: nat, id: string, row: Row, next: Local)
    requires s.rows == t.rows && RowDone(t, u, w, id, row, next)
    ensures RowDone(s, u, w, id, row, next)
  {
  }

  /** The row is read afresh and handed to the chain. */
  lemma SendDue(s: World, w: nat, id: string, sending: Sending)
    requires InHand(s, w, id)
    requires (At(s, w).Reading? && At(s, w).kind == PendingQueue) || (At(s, w).Looping? && At(s, w).kind == SignedQueue)
    ensures RowDone(s, Run(s, SendSteps(w, sending)), w, id, AfterBroadcast(s.rows[id], At(s, w).queue[0], sending),
                    NextRow(At(s, w)))
  {
    hide FailedRow, SentRow, Broadcastable, RowDone, Run, RecordStep;
    var ok, t := sending.Sent? && sending.published, Next(s, ReadFresh(w));
    RunFive(s, ReadFresh(w), Execute(w, sending), RecordStep(w, sending), Publish(w, ok), Fail(w));
    var u := Next(Next(Next(Next(t, Execute(w, sending)), RecordStep(w, sending)), Publish(w, ok)), Fail(w));
    if Broadcastable(s.rows[id].status) {
      FromExecuting(t, w, id, sending);
      SameRows(s, t, u, w, id, AfterBroadcast(s.rows[id], At(s, w).queue[0], sending), NextRow(At(s, w)));
    } else {
      NotDue(t, w, sending, ok);
      assert u == t;
      Unchanged(s, t, w, id, NextRow(At(s, w)));
    }
  }

  lemma Unchanged(s: World, t: World, w: nat, id: string, next: Local)
    requires id in s.rows && t.rows == s.rows && At(t, w) == next
    ensures RowDone(s, t, w, id, s.rows[id], next)
  {
  }

  /** A row that is failed, or that leaves nothing to send, before broadcastTransaction is reached. */
  lemma NothingToSend(s: World, w: nat, id: string, sending: Sending)
    requires InHand(s, w, id) && At(s, w).Failing?
    ensures var l := At(s, w);
            RowDone(s, Run(s, SendSteps(w, sending)), w, id,
                    FailedRow(s.rows[id], l.queue[0], l.step, l.error), NextRow(l))
  {
    hide FailedRow, RowDone, Run, Next;
    var ok := sending.Sent? && sending.published;
    RunFive(s, ReadFresh(w), Execute(w, sending), RecordStep(w, sending), Publish(w, ok), Fail(w));
    NotDue(s, w, sending, ok);
    FromFailing(s, w, id);
  }

  lemma AlreadyPassed(s: World, w: nat, sending: Sending)
    requires At(s, w).Idle? || (At(s, w).Looping? && At(s, w).kind == PendingQueue)
    ensures Run(s, SendSteps(w, sending)) == s
  {
    hide Run, Next;
    var ok := sending.Sent? && sending.published;
    RunFive(s, ReadFresh(w), Execute(w, sending), RecordStep(w, sending), Publish(w, ok), Fail(w));
    NotDue(s, w, sending, ok);
  }

  /** Where the claim leaves the row and the worker. */
  lemma AfterClaiming(s: World, w: nat, id: string, claim: ClaimAnswer)
    requires InHand(s, w, id) && At(s, w).Looping? && At(s, w).kind == PendingQueue
    ensures var l, row := At(s, w), s.rows[id];
            var now := if claim.Wallet? && Claimable(row.status) then ClaimedRow(row, claim.address) else row;
            var next := if claim.WalletThrows? then Abandon(l, claim.error)
                        else if !Claimable(row.status) then NextRow(l)
                        else if claim.published then Reading(l.kind, l.queue)
                        else Abandon(l, "event bus");
            && RowDone(s, Next(s, Claim(w, claim)), w, id, now, next)
            && At(Next(s, Claim(w, claim)), w) == next && now.id == id
  {
  }

  lemma KeepsInHand(s: World, t: World, w: nat, id: string, row: Row, l: Local)
    requires InHand(s, w, id) && RowDone(s, t, w, id, row, l) && row.id == id
    requires !l.Idle? && l.queue == At(s, w).queue
    ensures InHand(t, w, id) && t.rows[id] == row
  {
  }

  lemma PendingRow(s: World, w: nat, id: string, claim: ClaimAnswer, sending: Sending)
    requires InHand(s, w, id) && At(s, w).queue[0] == s.rows[id]
    requires At(s, w).Looping? && At(s, w).kind == PendingQueue
    ensures RowDone(s, Run(s, [Claim(w, claim)] + SendSteps(w, sending)), w, id,
                    AfterPending(s.rows[id], claim, sending), NextRow(At(s, w)))
  {
    hide FailedRow, Claimable, RowDone, Run, Next, SendSteps, AfterBroadcast;
    var l, row, t := At(s, w), s.rows[id], Next(s, Claim(w, claim));
    RunOne(s, Claim(w, claim));
    RunConcat(s, [Claim(w, claim)], SendSteps(w, sending));
    var u := Run(t, SendSteps(w, sending));
    AfterClaiming(s, w, id, claim);
    if claim.Wallet? && !Claimable(row.status) {
      AlreadyPassed(t, w, sending);
    } else {
      var now := if claim.Wallet? then ClaimedRow(row, claim.address) else row;
      KeepsInHand(s, t, w, id, now, At(t, w));
      if At(t, w).Failing? {
        NothingToSend(t, w, id, sending);
      } else {
        SendDue(t, w, id, sending);
      }
      Then(s, t, u, w, id, now, At(t, w), AfterPending(row, claim, sending), NextRow(l));
    }
  }

  /**
    The steps a worker takes for a row nobody else has touched since its pass read it make of the row
    what the loop makes of it.
  */
  lemma RowIsDone(s: World, w: nat, p: Pass, id: string)
    requires InHand(s, w, id) && At(s, w).queue[0] == s.rows[id]
    requires At(s, w).Looping? && At(s, w).kind == KindOf(p)
    requires p.RetryPass? ==> LeftBy(p.routings(id)).id == id
    ensures RowDone(s, Run(s, RowSteps(p, w, id)), w, id, AfterRow(p, s.rows[id]), NextRow(At(s, w)))
  {
    hide RowDone, Run, SendSteps, MonitorPatch, FailedRow;
    match p {
      case PendingPass(_, claims, sendings) =>
        PendingRow(s, w, id, claims(id), sendings(id));
      case SignedPass(_, sendings) =>
        SendDue(s, w, id, sendings(id));
      case MonitorPass(_, answers) =>
        RunTwo(s, Monitor(w, answers(id)), Fail(w));
        MonitorDone(s, w, id, answers(id));
      case RetryPass(_, routings) =>
        RunOne(s, Retry(w, routings(id)));
        RetryDone(s, w, id, routings(id));
    }
  }

  lemma MonitorDone(s: World, w: nat, id: string, a: ChainAnswer)
    requires InHand(s, w, id) && At(s, w).queue[0] == s.rows[id]
    requires At(s, w).Looping? && At(s, w).kind == MonitorQueue
    ensures RowDone(s, Next(Next(s, Monitor(w, a)), Fail(w)), w, id, AfterMonitor(s.rows[id], a), NextRow(At(s, w)))
  {
    hide FailedRow, RowDone;
    var l, t, row := At(s, w), Next(s, Monitor(w, a)), s.rows[id];
    var updated := Apply(row, MonitorPatch(row, a));
    MonitorUpdates(s, w, id, a);
    if EventLost(row, a) {
      KeepsInHand(s, t, w, id, updated, AfterUpdate(l, a));
      FromFailing(t, w, id);
      Then(s, t, Next(t, Fail(w)), w, id, updated, AfterUpdate(l, a), AfterMonitor(row, a), NextRow(l));
    } else {
      assert !t.locals[w].Failing?;
    }
  }

  lemma MonitorUpdates(s: World, w: nat, id: string, a: ChainAnswer)
    requires InHand(s, w, id) && At(s, w).queue[0] == s.rows[id]
    requires At(s, w).Looping? && At(s, w).kind == MonitorQueue
    ensures RowDone(s, Next(s, Monitor(w, a)), w, id,
                    Apply(s.rows[id], MonitorPatch(s.rows[id], a)), AfterUpdate(At(s, w), a))
  {
    hide MonitorPatch, EventLost;
  }

  lemma RetryDone(s: World, w: nat, id: string, routing: Routing)
    requires InHand(s, w, id) && LeftBy(routing).id == id
    requires At(s, w).Looping? && At(s, w).kind == RetryQueue
    ensures RowDone(s, Next(s, Retry(w, routing)), w, id, AfterRetry(s.rows[id], routing), NextRow(At(s, w)))
  {
  }

  /** What a pass read when it began. */
  function Queue(rows: Table, ids: seq<string>): (q: seq<Row>)
    requires forall id :: id in ids ==> id in rows
    ensures |q| == |ids| && forall i :: 0 <= i < |ids| ==> q[i] == rows[ids[i]]
  {
    seq(|ids|, i requires 0 <= i < |ids| => rows[ids[i]])
  }

  function Rewritten(rows: Table, p: Pass, ids: seq<string>): Table {
    OnBatch(rows, ids, (r: Row) => AfterRow(p, r))
  }

  predicate Ready(rows: Table, p: Pass, ids: seq<string>) {
    && (forall id :: id in ids ==> id in rows && rows[id].id == id)
    && (forall i, j :: 0 <= i < j < |ids| ==> ids[i] != ids[j])
    && (p.RetryPass? ==> forall id :: id in ids ==> LeftBy(p.routings(id)).id == id)
  }

  lemma RewrittenFirst(rows: Table, p: Pass, ids: seq<string>)
    requires Ready(rows, p, ids) && ids != []
    ensures var now := rows[ids[0] := AfterRow(p, rows[ids[0]])];
            && Ready(now, p, ids[1..]) && Queue(now, ids[1..]) == Queue(rows, ids)[1..]
            && Rewritten(now, p, ids[1..]) == Rewritten(rows, p, ids)
  {
    hide AfterRow;
    assert ids == [ids[0]] + ids[1..];
    assert ids[0] !in ids[1..];
  }

  lemma {:induction false} QueueIsDone(s: World, w: nat, p: Pass, ids: seq<string>)
    requires Ready(s.rows, p, ids)
    requires At(s, w) == if ids == [] then Idle else Looping(KindOf(p), Queue(s.rows, ids))
    ensures var s' := Run(s, PassSteps(p, w, ids));
            s'.rows == Rewritten(s.rows, p, ids) && At(s', w) == Idle
    decreases |ids|
  {
    hide Run, RowSteps, Ready, Queue, Rewritten, At;
    if ids == [] {
      NothingQueued(s, p);
    } else {
      RunConcat(s, RowSteps(p, w, ids[0]), PassSteps(p, w, ids[1..]));
      FirstIsDone(s, w, p, ids);
      QueueIsDone(Run(s, RowSteps(p, w, ids[0])), w, p, ids[1..]);
    }
  }

  lemma NothingQueued(s: World, p: Pass)
    ensures Run(s, []) == s && Rewritten(s.rows, p, []) == s.rows
  {
  }

  lemma FirstIsDone(s: World, w: nat, p: Pass, ids: seq<string>)
    requires Ready(s.rows, p, ids) && ids != []
    requires At(s, w) == Looping(KindOf(p), Queue(s.rows, ids))
    ensures var t := Run(s, RowSteps(p, w, ids[0]));
            && Ready(t.rows, p, ids[1..])
            && Rewritten(t.rows, p, ids[1..]) == Rewritten(s.rows, p, ids)
            && At(t, w) == if ids[1..] == [] then Idle else Looping(KindOf(p), Queue(t.rows, ids[1..]))
  {
    hide Run, AfterRow, RowSteps, Ready, Queue, Rewritten, InHand;
    FirstInHand(s, w, p, ids);
    RowIsDone(s, w, p, ids[0]);
    RewrittenFirst(s.rows, p, ids);
  }

  lemma FirstInHand(s: World, w: nat, p: Pass, ids: seq<string>)
    requires Ready(s.rows, p, ids) && ids != []
    requires At(s, w) == Looping(KindOf(p), Queue(s.rows, ids))
    ensures InHand(s, w, ids[0]) && At(s, w).queue[0] == s.rows[ids[0]]
    ensures p.RetryPass? ==> LeftBy(p.routings(ids[0])).id == ids[0]
    ensures NextRow(At(s, w)) == if |ids| == 1 then Idle else Looping(KindOf(p), Queue(s.rows, ids)[1..])
  {
    assert ids[0] in ids;
  }

  /**
    A whole pass that is not interleaved with anything: from the query to the last row, step by step,
    the table ends as the pass taken as one loop leaves it.
  */
  lemma UninterruptedPassIsTheLoop(s: World, w: nat, p: Pass)
    requires At(s, w).Idle? && WellKeyed(s.rows) && p.batch != []
    requires IsBatch(s.rows, p.batch, Selection(p))
    requires p.RetryPass? ==> forall id :: id in p.batch ==> LeftBy(p.routings(id)).id == id
    ensures Run(s, [Begin(w, KindOf(p), p.batch)] + PassSteps(p, w, p.batch)).rows == AfterPass(s.rows, p)
  {
    hide Run, AfterRow, PassSteps;
    var begin := Begin(w, KindOf(p), p.batch);
    RunOne(s, begin);
    RunConcat(s, [begin], PassSteps(p, w, p.batch));
    Begun(s, w, p);
    QueueIsDone(Next(s, begin), w, p, p.batch);
    LoopRewrites(s.rows, p);
  }

  lemma Begun(s: World, w: nat, p: Pass)
    requires At(s, w).Idle? && WellKeyed(s.rows) && p.batch != []
    requires IsBatch(s.rows, p.batch, Selection(p))
    requires p.RetryPass? ==> forall id :: id in p.batch ==> LeftBy(p.routings(id)).id == id
    ensures var t := Next(s, Begin(w, KindOf(p), p.batch));
            t.rows == s.rows && Ready(s.rows, p, p.batch) && At(t, w) == Looping(KindOf(p), Queue(s.rows, p.batch))
  {
  }

  lemma LoopRewrites(rows: Table, p: Pass)
    requires IsBatch(rows, p.batch, Selection(p))
    ensures AfterPass(rows, p) == Rewritten(rows, p, p.batch)
  {
    hide AfterPending, AfterBroadcast, AfterMonitor, AfterRetry;
  }
}
