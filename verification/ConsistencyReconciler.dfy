/**
  The session reconciler (workers/consistencyReconciler.js) with the status it is given for a
  transaction (lib/services/blockchainService.js, getTransactionStatus). Each pass rewrites the
  sessions it selects one by one; the history of one session over a run is what the laws are about.
*/
module ConsistencyReconciler {
  import opened Wrappers
  import opened Batches
  import opened JsText

  datatype Status =
    | PENDING | AWAITING_PAYMENT | PROCESSING | PAYMENT_CONFIRMED | CHAIN_PENDING | CHAIN_CONFIRMED
    | COMPLETED | FAILED | REFUNDED

  datatype Session = Session(
    id: string, onramp: bool, status: Status,
    paymentProvider: Option<string>, paymentSessionId: Option<string>, paymentStatus: Option<string>,
    paymentIntentId: Option<string>,
    txHash: Option<string>, txStatus: Option<string>, blockNumber: Option<int>,
    errorMessage: Option<string>, retryCount: int, lastProcessedAt: Option<int>, createdAt: int, updatedAt: int)

  const STUCK_THRESHOLD := 30 * 60 * 1000
  const MAX_AGE := 24 * 60 * 60 * 1000

  // ----- answers of the payment provider, the chain and the database -----

  datatype PaymentAnswer = PaymentThrows | Payment(status: string, intentId: Option<string>)

  datatype ChainAnswer = ChainThrows | TxStatus(status: string, confirmed: bool, blockNumber: Option<int>)

  /** How many updates of a session the database takes in a pass before it refuses one. */
  datatype Storage = Takes(updates: nat) | TakesAll

  predicate Stored(st: Storage, k: nat) {
    st.TakesAll? || k <= st.updates
  }

  /** What one pass over a session depends on besides the session. */
  datatype Env = Env(now: int, payment: PaymentAnswer, configured: bool, chain: ChainAnswer, storage: Storage)

  // ----- what each pass selects -----

  predicate SelectsStuck(s: Session, now: int) {
    && s.status in {AWAITING_PAYMENT, PROCESSING, PAYMENT_CONFIRMED, CHAIN_PENDING}
    && s.updatedAt < now - STUCK_THRESHOLD && s.retryCount < 3
  }

  predicate SelectsPayment(s: Session) {
    s.status in {AWAITING_PAYMENT, PROCESSING} && s.paymentProvider == Some("live") && s.paymentSessionId.Some?
  }

  predicate SelectsRecheck(s: Session) {
    s.status == CHAIN_PENDING && s.txHash.Some?
  }

  predicate SelectsRepair(s: Session) {
    s.onramp && s.status == CHAIN_PENDING && s.paymentStatus.None?
  }

  predicate SelectsExpired(s: Session, now: int) {
    s.status in {PENDING, AWAITING_PAYMENT} && s.createdAt < now - MAX_AGE
  }

  // ----- the trace of one session -----

  /** What happens to a session: a question about its hash and the answer, or a successful update. */
  datatype Event = Asked(hash: string, answer: ChainAnswer) | Wrote(session: Session)

  function Paid(s: Session, intent: Option<string>, now: int): Session {
    s.(status := PAYMENT_CONFIRMED, paymentStatus := Some("paid"), paymentIntentId := intent, updatedAt := now)
  }

  function ChainConfirmed(s: Session, block: Option<int>, now: int): Session {
    s.(status := CHAIN_CONFIRMED, txStatus := Some("confirmed"), blockNumber := block, updatedAt := now)
  }

  function ChainFailed(s: Session, now: int): Session {
    s.(status := FAILED, txStatus := Some("failed"), errorMessage := Some("Blockchain transaction failed"),
       updatedAt := now)
  }

  function PaymentEvents(s: Session, e: Env, touch: bool): seq<Event> {
    if e.payment.Payment? && e.payment.status == "paid" && s.status != PAYMENT_CONFIRMED && Stored(e.storage, 1)
    then
      var paid := Paid(s, e.payment.intentId, e.now);
      [Wrote(if touch then paid.(lastProcessedAt := Some(e.now)) else paid)]
    else []
  }

  /** The two updates of a confirmation are separate: the second can be refused after the first was taken. */
  function RecheckEvents(s: Session, e: Env, fails: bool): seq<Event>
    requires s.txHash.Some?
  {
    var asked := [Asked(s.txHash.value, e.chain)];
    if e.chain.ChainThrows? then asked
    else if e.chain.confirmed then
      var confirmed := ChainConfirmed(s, e.chain.blockNumber, e.now);
      if !Stored(e.storage, 1) then asked
      else if !Stored(e.storage, 2) then asked + [Wrote(confirmed)]
      else asked + [Wrote(confirmed), Wrote(confirmed.(status := COMPLETED))]
    else if fails && e.chain.status == "failed" && Stored(e.storage, 1) then asked + [Wrote(ChainFailed(s, e.now))]
    else asked
  }

  datatype Pass = StuckPass | PaymentPass | RecheckPass | RepairPass | ExpirePass

  predicate Selects(p: Pass, s: Session, now: int) {
    match p
    case StuckPass => SelectsStuck(s, now)
    case PaymentPass => SelectsPayment(s)
    case RecheckPass => SelectsRecheck(s)
    case RepairPass => SelectsRepair(s)
    case ExpirePass => SelectsExpired(s, now)
  }

  /** What a pass does with a session it selects. */
  function Events(p: Pass, s: Session, e: Env): seq<Event>
    requires Selects(p, s, e.now)
  {
    match p
    case StuckPass =>
      if s.status == AWAITING_PAYMENT && Truthy(s.paymentSessionId) then PaymentEvents(s, e, false)
      else if s.status == PAYMENT_CONFIRMED then
        if Stored(e.storage, 1)
        then [Wrote(s.(lastProcessedAt := Some(e.now), updatedAt := e.now,
                       errorMessage := Some("Stuck session - queued for reprocessing")))]
        else []
      else if s.status == CHAIN_PENDING && Truthy(s.txHash) && e.configured then RecheckEvents(s, e, false)
      else []
    case PaymentPass => PaymentEvents(s, e, true)
    case RecheckPass => if e.configured then RecheckEvents(s, e, true) else []
    case RepairPass =>
      if Stored(e.storage, 1)
      then [Wrote(s.(paymentStatus := Some("assumed_paid"), errorMessage := Some("State repaired by reconciler"),
                     updatedAt := e.now))]
      else []
    case ExpirePass =>
      if Stored(e.storage, 1)
      then [Wrote(s.(status := FAILED, errorMessage := Some("Session expired after 24 hours"), updatedAt := e.now))]
      else []
  }

  function Latest(s: Session, trace: seq<Event>): Session {
    if trace == [] then s
    else match trace[|trace| - 1] case Wrote(t) => t case Asked(_, _) => Latest(s, trace[..|trace| - 1])
  }

  function After(p: Pass, s: Session, e: Env): Session {
    if Selects(p, s, e.now) then Latest(s, Events(p, s, e)) else s
  }

  // ----- the reconciler object -----

  type Sessions = map<string, Session>

  class Reconciler {
    var sessions: Sessions

    constructor (initial: Sessions)
      ensures sessions == initial
    {
      sessions := initial;
    }

    method RecheckPayment(id: string, e: Env)
      requires id in sessions && sessions[id].status != PAYMENT_CONFIRMED
      modifies this`sessions
      ensures sessions == old(sessions)[id := Latest(old(sessions)[id], PaymentEvents(old(sessions)[id], e, false))]
    {
      var s := sessions[id];
      assert sessions[id := s] == sessions;
      if e.payment.Payment? && e.payment.status == "paid" {
        if Stored(e.storage, 1) {
          sessions := sessions[id := Paid(s, e.payment.intentId, e.now)];
        }
      }
    }

    /** recheckTransaction, and with `fails` the body of recheckBlockchainConfirmations. */
    method RecheckTransaction(id: string, e: Env, fails: bool)
      requires id in sessions && sessions[id].txHash.Some?
      modifies this`sessions
      ensures sessions == old(sessions)[id := Latest(old(sessions)[id], RecheckEvents(old(sessions)[id], e, fails))]
    {
      var s := sessions[id];
      assert sessions[id := s] == sessions;
      LatestOfAsked(s, Asked(s.txHash.value, e.chain));
      if e.chain.ChainThrows? {
        return;
      }
      if e.chain.confirmed {
        if !Stored(e.storage, 1) {
          return;
        }
        sessions := sessions[id := ChainConfirmed(s, e.chain.blockNumber, e.now)];
        if !Stored(e.storage, 2) {
          return;
        }
        sessions := sessions[id := sessions[id].(status := COMPLETED)];
      } else if fails && e.chain.status == "failed" {
        if Stored(e.storage, 1) {
          sessions := sessions[id := ChainFailed(s, e.now)];
        }
      }
    }

    /** The body of the pass's loop for one of the sessions it selected. */
    method ReconcileSession(p: Pass, id: string, e: Env)
      requires id in sessions && Selects(p, sessions[id], e.now)
      modifies this`sessions
      ensures sessions == old(sessions)[id := After(p, old(sessions)[id], e)]
    {
      hide Stored, RecheckEvents;
      var s := sessions[id];
      assert sessions[id := s] == sessions;
      match p {
        case StuckPass =>
          if s.status == AWAITING_PAYMENT && Truthy(s.paymentSessionId) {
            RecheckPayment(id, e);
          } else if s.status == PAYMENT_CONFIRMED {
            if Stored(e.storage, 1) {
              sessions := sessions[id := s.(lastProcessedAt := Some(e.now), updatedAt := e.now,
                                            errorMessage := Some("Stuck session - queued for reprocessing"))];
            }
          } else if s.status == CHAIN_PENDING && Truthy(s.txHash) && e.configured {
            RecheckTransaction(id, e, false);
          }
        case PaymentPass =>
          if e.payment.Payment? && e.payment.status == "paid" && s.status != PAYMENT_CONFIRMED {
            if Stored(e.storage, 1) {
              sessions := sessions[id := Paid(s, e.payment.intentId, e.now).(lastProcessedAt := Some(e.now))];
            }
          }
        case RecheckPass =>
          if e.configured {
            RecheckTransaction(id, e, true);
          }
        case RepairPass =>
          if Stored(e.storage, 1) {
            sessions := sessions[id := s.(paymentStatus := Some("assumed_paid"), updatedAt := e.now,
                                          errorMessage := Some("State repaired by reconciler"))];
          }
        case ExpirePass =>
          if Stored(e.storage, 1) {
            sessions := sessions[id := s.(status := FAILED, updatedAt := e.now,
                                          errorMessage := Some("Session expired after 24 hours"))];
          }
      }
    }

    method RunPass(p: Pass, batch: seq<string>, now: int, env: string -> Env)
      requires forall id :: env(id).now == now
      requires forall id :: id in sessions ==> sessions[id].id == id
      requires IsBatch(sessions, batch, (s: Session) => Selects(p, s, now))
      modifies this`sessions
      ensures sessions == OnBatch(old(sessions), batch, (s: Session) => After(p, s, env(s.id)))
      ensures forall id :: id in sessions ==> sessions[id].id == id
    {
      hide OnBatch, After, Selects;
      ghost var after := (s: Session) => After(p, s, env(s.id));
      ghost var was := sessions;
      OnBatchNone(was, after);
      var i := 0;
      while i < |batch|
        invariant i <= |batch|
        invariant sessions == OnBatch(was, batch[..i], after)
      {
        OnBatchNext(was, batch, i, after);
        ReconcileSession(p, batch[i], env(batch[i]));
        i := i + 1;
      }
      assert batch[..i] == batch;
      KeepsIds(was, batch, p, env);
    }
  }

  lemma LatestOfAsked(s: Session, e: Event)
    requires e.Asked?
    ensures Latest(s, [e]) == s
  {
    assert [e][..0] == [];
  }

  lemma AfterKeepsIdentity(p: Pass, s: Session, e: Env)
    ensures After(p, s, e).id == s.id && After(p, s, e).txHash == s.txHash
  {
    hide Events, Selects, RisesThroughout, StatusChanges, Latest;
    if Selects(p, s, e.now) {
      EventsRise(p, s, e);
      ChangesBounded(s, Events(p, s, e));
    }
  }

  lemma KeepsIds(was: Sessions, batch: seq<string>, p: Pass, env: string -> Env)
    requires forall id :: id in was ==> was[id].id == id
    ensures var now := OnBatch(was, batch, (s: Session) => After(p, s, env(s.id)));
            forall id :: id in now ==> now[id].id == id
  {
    forall id | id in was ensures After(p, was[id], env(id)).id == id {
      AfterKeepsIdentity(p, was[id], env(id));
    }
  }

  // ----- the run of one session -----

  /** Everything that happens to a session as passes come by, in any order, with any answers. */
  function Trace(s: Session, passes: seq<(Pass, Env)>): seq<Event> {
    if passes == [] then [] else
    var before := Trace(s, passes[..|passes| - 1]);
    var (p, e) := passes[|passes| - 1];
    var t := Latest(s, before);
    if Selects(p, t, e.now) then before + Events(p, t, e) else before
  }

  function Rank(s: Status): nat {
    match s
    case PENDING => 0
    case AWAITING_PAYMENT => 1
    case PROCESSING => 2
    case PAYMENT_CONFIRMED => 3
    case CHAIN_PENDING => 4
    case CHAIN_CONFIRMED => 5
    case COMPLETED | FAILED | REFUNDED => 6
  }

  /** The number of updates in a trace that change the status. */
  function StatusChanges(s: Session, trace: seq<Event>): nat {
    if trace == [] then 0 else
    var front := trace[..|trace| - 1];
    StatusChanges(s, front)
    + match trace[|trace| - 1]
      case Wrote(t) => if t.status != Latest(s, front).status then 1 else 0
      case Asked(_, _) => 0
  }

  predicate Rises(s: Session, t: Session) {
    t.id == s.id && t.txHash == s.txHash && (t.status == s.status || Rank(s.status) < Rank(t.status))
  }

  /** Every update in the trace keeps the status or raises its rank. */
  predicate RisesThroughout(s: Session, trace: seq<Event>) {
    trace != [] ==>
      && RisesThroughout(s, trace[..|trace| - 1])
      && (trace[|trace| - 1].Wrote? ==> Rises(Latest(s, trace[..|trace| - 1]), trace[|trace| - 1].session))
  }

  lemma {:induction false} LatestConcat(s: Session, a: seq<Event>, b: seq<Event>)
    ensures Latest(s, a + b) == Latest(Latest(s, a), b)
  {
    if b == [] {
      assert a + b == a;
    } else {
      LatestConcat(s, a, b[..|b| - 1]);
      assert (a + b)[..|a + b| - 1] == a + b[..|b| - 1];
    }
  }

  lemma {:induction false} RisesConcat(s: Session, a: seq<Event>, b: seq<Event>)
    requires RisesThroughout(s, a) && RisesThroughout(Latest(s, a), b)
    ensures RisesThroughout(s, a + b)
  {
    if b == [] {
      assert a + b == a;
    } else {
      var front := b[..|b| - 1];
      RisesConcat(s, a, front);
      LatestConcat(s, a, front);
      assert (a + b)[..|a + b| - 1] == a + front;
    }
  }

  lemma OneEvent(s: Session, x: Event)
    requires x.Wrote? ==> Rises(s, x.session)
    ensures RisesThroughout(s, [x])
  {
    assert [x][..0] == [];
  }

  lemma EventsRise(p: Pass, s: Session, e: Env)
    requires Selects(p, s, e.now)
    ensures RisesThroughout(s, Events(p, s, e))
  {
    hide RisesThroughout, RecheckEvents, Stored;
    NoEvents(s);
    var es := Events(p, s, e);
    if p == RecheckPass && e.configured {
      RecheckRises(s, e, true);
    } else if p == StuckPass && s.status == CHAIN_PENDING && Truthy(s.txHash) && e.configured {
      RecheckRises(s, e, false);
    } else if es != [] {
      OneEvent(s, es[0]);
    }
  }

  lemma NoEvents(s: Session)
    ensures RisesThroughout(s, [])
  {
  }

  lemma RecheckRises(s: Session, e: Env, fails: bool)
    requires s.txHash.Some? && s.status == CHAIN_PENDING
    ensures RisesThroughout(s, RecheckEvents(s, e, fails))
  {
    hide RisesThroughout, Latest, Stored;
    var asked := Asked(s.txHash.value, e.chain);
    OneEvent(s, asked);
    if e.chain.TxStatus? {
      var confirmed := ChainConfirmed(s, e.chain.blockNumber, e.now);
      TwoEvents(s, asked, ChainFailed(s, e.now));
      TwoEvents(s, asked, confirmed);
      ThreeEvents(s, asked, confirmed, confirmed.(status := COMPLETED));
    }
  }

  lemma TwoEvents(s: Session, asked: Event, t: Session)
    requires asked.Asked? && Rises(s, t)
    ensures RisesThroughout(s, [asked] + [Wrote(t)])
  {
    hide RisesThroughout, Latest, Rises;
    OneEvent(s, asked);
    LatestOfAsked(s, asked);
    OneEvent(s, Wrote(t));
    RisesConcat(s, [asked], [Wrote(t)]);
  }

  lemma ThreeEvents(s: Session, asked: Event, t: Session, u: Session)
    requires asked.Asked? && Rises(s, t) && Rises(t, u)
    ensures RisesThroughout(s, [asked] + [Wrote(t), Wrote(u)])
  {
    hide RisesThroughout, Latest, Rises;
    TwoEvents(s, asked, t);
    LatestOfWrote(s, asked, Wrote(t));
    OneEvent(t, Wrote(u));
    RisesConcat(s, [asked] + [Wrote(t)], [Wrote(u)]);
    assert [asked] + [Wrote(t)] + [Wrote(u)] == [asked] + [Wrote(t), Wrote(u)];
  }

  lemma LatestOfWrote(s: Session, x: Event, y: Event)
    requires y.Wrote?
    ensures Latest(s, [x] + [y]) == y.session
  {
    assert ([x] + [y])[|[x] + [y]| - 1] == y;
  }

  lemma {:induction false} TraceRises(s: Session, passes: seq<(Pass, Env)>)
    ensures RisesThroughout(s, Trace(s, passes))
  {
    hide Events, Selects;
    if passes != [] {
      var front := passes[..|passes| - 1];
      var (p, e) := passes[|passes| - 1];
      TraceRises(s, front);
      var t := Latest(s, Trace(s, front));
      if Selects(p, t, e.now) {
        EventsRise(p, t, e);
        RisesConcat(s, Trace(s, front), Events(p, t, e));
      }
    }
  }

  lemma {:induction false} ChangesBounded(s: Session, trace: seq<Event>)
    requires RisesThroughout(s, trace)
    ensures StatusChanges(s, trace) + Rank(s.status) <= Rank(Latest(s, trace).status) <= 6
    ensures Latest(s, trace).id == s.id && Latest(s, trace).txHash == s.txHash
  {
    if trace != [] {
      ChangesBounded(s, trace[..|trace| - 1]);
    }
  }

  /**
    Over any run, whatever is answered and whichever writes the database refuses, a session changes
    status at most as often as its rank allows, and never leaves COMPLETED, FAILED or REFUNDED.
  */
  lemma StatusChangesAreFinite(s: Session, passes: seq<(Pass, Env)>)
    ensures StatusChanges(s, Trace(s, passes)) <= 6 - Rank(s.status)
    ensures Rank(s.status) == 6 ==> Latest(s, Trace(s, passes)).status == s.status
  {
    TraceRises(s, passes);
    ChangesBounded(s, Trace(s, passes));
    if Rank(s.status) == 6 {
      TopStays(s, Trace(s, passes));
    }
  }

  lemma {:induction false} TopStays(s: Session, trace: seq<Event>)
    requires RisesThroughout(s, trace) && Rank(s.status) == 6
    ensures Latest(s, trace).status == s.status
  {
    if trace != [] {
      TopStays(s, trace[..|trace| - 1]);
      ChangesBounded(s, trace[..|trace| - 1]);
    }
  }

  /** The sum of the status changes of all sessions over a run is bounded by six times their number. */
  function TotalChanges(ss: seq<Session>, runs: seq<seq<(Pass, Env)>>): nat
    requires |ss| == |runs|
  {
    if ss == [] then 0
    else StatusChanges(ss[0], Trace(ss[0], runs[0])) + TotalChanges(ss[1..], runs[1..])
  }

  lemma {:induction false} TotalChangesBounded(ss: seq<Session>, runs: seq<seq<(Pass, Env)>>)
    requires |ss| == |runs|
    ensures TotalChanges(ss, runs) <= 6 * |ss|
  {
    if ss != [] {
      StatusChangesAreFinite(ss[0], runs[0]);
      TotalChangesBounded(ss[1..], runs[1..]);
    }
  }

  // ----- completion is always answered for -----

  /** Every update to COMPLETED comes after a confirmed answer to a question about the session's own hash. */
  predicate CompletionsAnswered(s: Session, trace: seq<Event>) {
    forall i :: 0 <= i < |trace| && trace[i].Wrote? && trace[i].session.status == COMPLETED ==>
      exists j :: 0 <= j < i && trace[j].Asked? && s.txHash == Some(trace[j].hash)
                  && trace[j].answer.TxStatus? && trace[j].answer.confirmed
  }

  lemma EventsAnswered(p: Pass, s: Session, e: Env)
    requires Selects(p, s, e.now)
    ensures CompletionsAnswered(s, Events(p, s, e))
  {
    hide Stored;
    var es := Events(p, s, e);
    if |es| == 3 {
      assert es[0] == Asked(s.txHash.value, e.chain);
    }
  }

  lemma AnsweredConcat(s: Session, a: seq<Event>, b: seq<Event>)
    requires CompletionsAnswered(s, a) && CompletionsAnswered(s, b)
    ensures CompletionsAnswered(s, a + b)
  {
    var all := a + b;
    forall i | 0 <= i < |all| && all[i].Wrote? && all[i].session.status == COMPLETED
      ensures exists j :: 0 <= j < i && all[j].Asked? && s.txHash == Some(all[j].hash)
                          && all[j].answer.TxStatus? && all[j].answer.confirmed
    {
      if i < |a| {
        var j :| 0 <= j < i && a[j].Asked? && s.txHash == Some(a[j].hash)
                 && a[j].answer.TxStatus? && a[j].answer.confirmed;
        assert all[j] == a[j];
      } else {
        assert b[i - |a|] == all[i];
        var j :| 0 <= j < i - |a| && b[j].Asked? && s.txHash == Some(b[j].hash)
                 && b[j].answer.TxStatus? && b[j].answer.confirmed;
        assert all[j + |a|] == b[j];
      }
    }
  }

  lemma {:induction false} CompletedOnlyWhenConfirmed(s: Session, passes: seq<(Pass, Env)>)
    ensures CompletionsAnswered(s, Trace(s, passes))
  {
    hide Events, Selects;
    if passes != [] {
      var front := passes[..|passes| - 1];
      var (p, e) := passes[|passes| - 1];
      CompletedOnlyWhenConfirmed(s, front);
      TraceRises(s, front);
      ChangesBounded(s, Trace(s, front));
      var t := Latest(s, Trace(s, front));
      if Selects(p, t, e.now) {
        EventsAnswered(p, t, e);
        AnsweredConcat(s, Trace(s, front), Events(p, t, e));
      }
    }
  }

  // ----- confirmation is paid for, and only old sessions expire -----

  predicate SaysPaid(e: Env) {
    e.payment.Payment? && e.payment.status == "paid"
  }

  /** The transaction is reported as failed, and not as confirmed. */
  predicate SaysFailed(e: Env) {
    e.chain.TxStatus? && !e.chain.confirmed && e.chain.status == "failed"
  }

  predicate OlderThanADay(createdAt: int, now: int) {
    now - createdAt > 24 * 60 * 60 * 1000
  }

  /**
    A pass confirms a session's payment exactly when the provider answers "paid" for it and the update
    is taken: in the payment pass for a live provider with a payment session, in the stuck pass for one
    that awaits payment, untouched for half an hour and retried less than three times. It fails a session
    exactly when the session has not been paid within a day of its creation, or its transaction is
    reported as failed in the recheck pass.
  */
  lemma PassOutcome(p: Pass, s: Session, e: Env)
    ensures var t := After(p, s, e);
            && (t.status == PAYMENT_CONFIRMED && s.status != PAYMENT_CONFIRMED <==>
                  && SaysPaid(e) && Stored(e.storage, 1)
                  && ((&& p.PaymentPass? && (s.status == AWAITING_PAYMENT || s.status == PROCESSING)
                       && s.paymentProvider == Some("live") && s.paymentSessionId.Some?)
                      || (&& p.StuckPass? && s.status == AWAITING_PAYMENT && Truthy(s.paymentSessionId)
                          && e.now - s.updatedAt > 30 * 60 * 1000 && s.retryCount < 3)))
            && (t.status == FAILED && s.status != FAILED <==>
                  && Stored(e.storage, 1)
                  && ((&& p.ExpirePass? && (s.status == PENDING || s.status == AWAITING_PAYMENT)
                       && OlderThanADay(s.createdAt, e.now))
                      || (&& p.RecheckPass? && s.status == CHAIN_PENDING && s.txHash.Some?
                          && e.configured && SaysFailed(e))))
            && t.createdAt == s.createdAt
  {
    if s.txHash.Some? {
      LatestOfAsked(s, Asked(s.txHash.value, e.chain));
    }
  }

  /** What a pass writes besides the status, given the status it leaves. */
  lemma PassWrites(p: Pass, s: Session, e: Env)
    ensures var t := After(p, s, e);
            && (t.status == PAYMENT_CONFIRMED && s.status != PAYMENT_CONFIRMED ==>
                  && e.payment.Payment?
                  && t == s.(status := PAYMENT_CONFIRMED, paymentStatus := Some("paid"), updatedAt := e.now,
                             paymentIntentId := e.payment.intentId,
                             lastProcessedAt := if p.PaymentPass? then Some(e.now) else s.lastProcessedAt))
            && (t.status in {CHAIN_CONFIRMED, COMPLETED} && s.status != t.status ==>
                  && e.chain.TxStatus?
                  && t == s.(status := t.status, txStatus := Some("confirmed"), updatedAt := e.now,
                             blockNumber := e.chain.blockNumber))
            && (t.status == FAILED && s.status != FAILED && p.RecheckPass? ==>
                  t == s.(status := FAILED, txStatus := Some("failed"), updatedAt := e.now,
                          errorMessage := Some("Blockchain transaction failed")))
            && (t.status == FAILED && s.status != FAILED && !p.RecheckPass? ==>
                  t == s.(status := FAILED, updatedAt := e.now, errorMessage := Some("Session expired after 24 hours")))
  {
    if s.txHash.Some? {
      LatestOfAsked(s, Asked(s.txHash.value, e.chain));
    }
  }

  /**
    What a pass writes without changing the status. An on-ramp whose chain transaction is pending and
    which has no payment status is repaired; a confirmed payment that nobody has touched for half an
    hour, retried less than three times, is queued again; and nothing else is written.
  */
  lemma PassMarks(p: Pass, s: Session, e: Env)
    requires After(p, s, e).status == s.status
    ensures var t := After(p, s, e);
            var repairs := p.RepairPass? && s.onramp && s.status == CHAIN_PENDING && s.paymentStatus.None?;
            var requeues := p.StuckPass? && s.status == PAYMENT_CONFIRMED && s.retryCount < 3
                            && e.now - s.updatedAt > 30 * 60 * 1000;
            && t == (if !Stored(e.storage, 1) then s
                     else if repairs then
                       s.(paymentStatus := Some("assumed_paid"), updatedAt := e.now,
                          errorMessage := Some("State repaired by reconciler"))
                     else if requeues then
                       s.(lastProcessedAt := Some(e.now), updatedAt := e.now,
                          errorMessage := Some("Stuck session - queued for reprocessing"))
                     else s)
  {
    if s.txHash.Some? {
      LatestOfAsked(s, Asked(s.txHash.value, e.chain));
    }
  }

  /** A repaired session is not selected for repair again, and one found stuck is left alone for half an hour. */
  lemma MarkedOnce(p: Pass, s: Session, e: Env, later: int)
    requires After(p, s, e) != s
    ensures p.RepairPass? ==> !SelectsRepair(After(p, s, e))
    ensures p.StuckPass? && later - e.now <= 30 * 60 * 1000 ==> !SelectsStuck(After(p, s, e), later)
  {
    if s.txHash.Some? {
      LatestOfAsked(s, Asked(s.txHash.value, e.chain));
    }
  }

  lemma TraceGoesOn(s: Session, passes: seq<(Pass, Env)>)
    requires passes != []
    ensures var (p, e) := passes[|passes| - 1];
            Latest(s, Trace(s, passes)) == After(p, Latest(s, Trace(s, passes[..|passes| - 1])), e)
  {
    hide Events, Selects;
    var front := passes[..|passes| - 1];
    var (p, e) := passes[|passes| - 1];
    var t := Latest(s, Trace(s, front));
    if Selects(p, t, e.now) {
      LatestConcat(s, Trace(s, front), Events(p, t, e));
    }
  }

  /**
    So over every run a session that comes to be confirmed was answered "paid" in some pass, and one that
    comes to have failed was more than a day old in a pass that expires sessions, or its transaction was
    reported as failed in a recheck.
  */
  lemma {:induction false} ConfirmedOnlyWhenPaid(s: Session, passes: seq<(Pass, Env)>)
    ensures var t := Latest(s, Trace(s, passes));
            && (t.status == PAYMENT_CONFIRMED && s.status != PAYMENT_CONFIRMED ==>
                  exists k :: 0 <= k < |passes| && SaysPaid(passes[k].1))
            && (t.status == FAILED && s.status != FAILED ==>
                  exists k :: 0 <= k < |passes| &&
                              ((passes[k].0.ExpirePass? && OlderThanADay(s.createdAt, passes[k].1.now))
                               || (passes[k].0.RecheckPass? && SaysFailed(passes[k].1))))
            && t.createdAt == s.createdAt
  {
    hide Trace, After;
    if passes == [] {
      assert Latest(s, Trace(s, [])) == s by { EmptyTrace(s); }
    } else {
      var front := passes[..|passes| - 1];
      var (p, e) := passes[|passes| - 1];
      ConfirmedOnlyWhenPaid(s, front);
      TraceGoesOn(s, passes);
      PassOutcome(p, Latest(s, Trace(s, front)), e);
    }
  }

  lemma EmptyTrace(s: Session)
    ensures Latest(s, Trace(s, [])) == s
  {
  }

  // ----- what the reconciler does not achieve -----

  datatype Receipt = Receipt(status: int, blockNumber: int)

  /** getTransactionStatus: deep enough is "confirmed" even for a transaction that failed. */
  function StatusOf(receipt: Option<Receipt>, currentBlock: int, required: int): ChainAnswer {
    match receipt
    case None => TxStatus("pending", false, None)
    case Some(r) =>
      TxStatus(if r.status == 1 then "success" else "failed", currentBlock - r.blockNumber >= required,
               Some(r.blockNumber))
  }

  /**
    With its writes taken, the recheck pass completes a session exactly when its transaction is deep
    enough in the chain, whether it succeeded there or not; it fails the session exactly when the
    transaction failed and is not yet that deep.
  */
  lemma RecheckOutcome(s: Session, e: Env, receipt: Option<Receipt>, currentBlock: int, required: int)
    requires SelectsRecheck(s) && e.configured && e.storage.TakesAll?
    requires e.chain == StatusOf(receipt, currentBlock, required)
    ensures var t := After(RecheckPass, s, e);
            && (t.status == COMPLETED <==> receipt.Some? && currentBlock - receipt.value.blockNumber >= required)
            && (t.status == FAILED <==>
                  receipt.Some? && receipt.value.status != 1 && currentBlock - receipt.value.blockNumber < required)
  {
    LatestOfAsked(s, Asked(s.txHash.value, e.chain));
  }

  /**
    The reconciler's own header promises that no session is left in an invalid state. A session whose
    second update was refused is: no pass ever selects CHAIN_CONFIRMED.
  */
  lemma {:induction false} ChainConfirmedIsAbandoned(s: Session, passes: seq<(Pass, Env)>)
    requires s.status == CHAIN_CONFIRMED
    ensures Trace(s, passes) == []
  {
    if passes != [] {
      ChainConfirmedIsAbandoned(s, passes[..|passes| - 1]);
    }
  }

  /** The pass asks the chain about the session. */
  predicate Rechecks(p: Pass, s: Session) {
    p.RecheckPass? || (p.StuckPass? && s.status == CHAIN_PENDING && Truthy(s.txHash))
  }

  /**
    A pass leaves a session it selected in CHAIN_CONFIRMED exactly when it asked, the answer was
    confirmed, and the database took the first update and refused the second; and there it stays.
  */
  lemma AbandonedExactlyWhen(p: Pass, s: Session, e: Env, passes: seq<(Pass, Env)>)
    requires Selects(p, s, e.now)
    ensures var t := After(p, s, e);
            && (t.status == CHAIN_CONFIRMED <==>
                  Rechecks(p, s) && e.configured && e.chain.TxStatus? && e.chain.confirmed && e.storage == Takes(1))
            && (t.status == CHAIN_CONFIRMED ==> Trace(t, passes) == [] && Latest(t, Trace(t, passes)) == t)
  {
    hide Trace;
    var t := After(p, s, e);
    if s.txHash.Some? {
      LatestOfAsked(s, Asked(s.txHash.value, e.chain));
    }
    if t.status == CHAIN_CONFIRMED {
      ChainConfirmedIsAbandoned(t, passes);
    }
  }
}
