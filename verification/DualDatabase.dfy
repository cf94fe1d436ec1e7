/**
  The migration from MongoDB to PostgreSQL: the manager of the two stores
  (backend/database/dual_manager.py) and the guards of the routes that drive it
  (backend/routes/migration_control.py). A store is the log of the operations it has applied.
*/
module DualDatabase {
  import opened Wrappers

  datatype Mode = MongoOnly | PostgresOnly | DualWrite | DualReadPg | ShadowMode

  datatype Phase = NotStarted | Staging | DualWriting | Validation | Cutover | Completed | RolledBack

  datatype Op = Put(key: string, value: string) | Delete(key: string)

  /** What an applied log has left in a store. */
  function Contents(log: seq<Op>): map<string, string> {
    if log == [] then map[] else
    var m := Contents(log[..|log| - 1]);
    match log[|log| - 1]
    case Put(k, v) => m[k := v]
    case Delete(k) => m - {k}
  }

  function Lookup(log: seq<Op>, key: string): Option<string> {
    if key in Contents(log) then Some(Contents(log)[key]) else None
  }

  /** How MongoDB takes a write. Untold: it raised although it had applied the operation. */
  datatype MongoOutcome = Applied | AppliedUntold | NotApplied

  /**
    How PostgreSQL takes a write: the session commits only after the operation has returned, and a
    commit that raises may have gone through.
  */
  datatype PgOutcome = Committed | OperationRaises | CommitRaises(committed: bool)

  datatype WriteReply = WriteReply(success: bool, mongoResult: bool, pgResult: bool, error: bool)

  datatype State = State(
    phase: Phase, mode: Mode, validationPassed: bool,
    mongo: seq<Op>, pg: seq<Op>,
    mongoWrites: nat, pgWrites: nat, consistencyFailures: nat)

  predicate MongoEnabled(mode: Mode) {
    mode != PostgresOnly
  }

  predicate PgEnabled(mode: Mode) {
    mode != MongoOnly
  }

  predicate ReadsFromPg(mode: Mode) {
    mode == PostgresOnly || mode == DualReadPg
  }

  // ----- one call -----

  /** PostgreSQL is attempted only if MongoDB is not enabled or has answered. */
  predicate PgAttempted(mode: Mode, mongoOutcome: MongoOutcome) {
    PgEnabled(mode) && (MongoEnabled(mode) ==> mongoOutcome.Applied?)
  }

  predicate Raises(mode: Mode, mongoOutcome: MongoOutcome, pgOutcome: PgOutcome) {
    || (MongoEnabled(mode) && !mongoOutcome.Applied?)
    || (PgAttempted(mode, mongoOutcome) && !pgOutcome.Committed?)
  }

  function AfterWrite(s: State, op: Op, mongoOutcome: MongoOutcome, pgOutcome: PgOutcome): State {
    var pgAttempted := PgAttempted(s.mode, mongoOutcome);
    var pgApplies := pgAttempted && (pgOutcome == Committed || pgOutcome == CommitRaises(true));
    s.(mongo := if MongoEnabled(s.mode) && !mongoOutcome.NotApplied? then s.mongo + [op] else s.mongo,
       mongoWrites := if MongoEnabled(s.mode) && mongoOutcome.Applied? then s.mongoWrites + 1 else s.mongoWrites,
       pg := if pgApplies then s.pg + [op] else s.pg,
       pgWrites := if pgAttempted && !pgOutcome.OperationRaises? then s.pgWrites + 1 else s.pgWrites,
       consistencyFailures :=
         if Raises(s.mode, mongoOutcome, pgOutcome) && s.mode == ShadowMode then s.consistencyFailures + 1
         else s.consistencyFailures)
  }

  function WriteReplyOf(mode: Mode, mongoOutcome: MongoOutcome, pgOutcome: PgOutcome): WriteReply {
    var mongoAnswers := MongoEnabled(mode) && mongoOutcome.Applied?;
    var pgAttempted := PgAttempted(mode, mongoOutcome);
    if !Raises(mode, mongoOutcome, pgOutcome) then WriteReply(true, mongoAnswers, pgAttempted, false)
    else if mode == ShadowMode then WriteReply(true, mongoAnswers, false, true)
    else WriteReply(false, mongoAnswers, pgAttempted && pgOutcome.CommitRaises?, true)
  }

  /** None: both the primary source and the fallback raised, or there is no fallback. */
  function ReadReply(s: State, key: string, mongoOk: bool, pgOk: bool): Option<Option<string>> {
    if ReadsFromPg(s.mode) then
      if pgOk then Some(Lookup(s.pg, key))
      else if MongoEnabled(s.mode) && mongoOk then Some(Lookup(s.mongo, key)) else None
    else
      if mongoOk then Some(Lookup(s.mongo, key))
      else if PgEnabled(s.mode) && pgOk then Some(Lookup(s.pg, key)) else None
  }

  // ----- the routes -----

  datatype Event =
    | Write(op: Op, mongoOutcome: MongoOutcome, pgOutcome: PgOutcome)
    | Start
    | EnableDualWrite
    | SwitchPrimary
    | Complete(force: bool)
    | Rollback
    | Validate(counts: bool, recent: bool, states: bool)
    | SetMode(mode: Mode)

  /** The guard a route checks before it touches the manager; a refused request changes nothing. */
  predicate Allowed(s: State, e: Event) {
    match e
    case Start => s.phase == NotStarted
    case EnableDualWrite => s.phase == Staging || s.phase == Validation
    case SwitchPrimary => s.phase == DualWriting && s.validationPassed
    case Complete(force) => (s.phase == Cutover || s.phase == Validation) && (force || s.validationPassed)
    case Validate(_, _, _) => PgEnabled(s.mode)
    case Write(_, _, _) | Rollback | SetMode(_) => true
  }

  function Effect(s: State, e: Event): State {
    match e
    case Write(op, mongoOutcome, pgOutcome) => AfterWrite(s, op, mongoOutcome, pgOutcome)
    case Start => s.(phase := Staging, mode := ShadowMode)
    case EnableDualWrite => s.(phase := DualWriting, mode := DualWrite)
    case SwitchPrimary => s.(phase := Cutover, mode := DualReadPg)
    case Complete(_) => s.(phase := Completed, mode := PostgresOnly)
    case Rollback => s.(phase := RolledBack, mode := MongoOnly)
    case Validate(counts, recent, states) =>
      s.(phase := Validation, validationPassed := counts && recent && states)
    case SetMode(mode) =>
      s.(mode := mode,
         phase := if mode == DualWrite then DualWriting
                  else if mode == PostgresOnly then Completed
                  else if mode == MongoOnly && s.phase != NotStarted then RolledBack
                  else s.phase)
  }

  function Step(s: State, e: Event): State {
    if Allowed(s, e) then Effect(s, e) else s
  }

  // ----- the manager object -----

  class DualDatabaseManager {
    var phase: Phase
    var mode: Mode
    var validationPassed: bool
    var mongo: seq<Op>
    var pg: seq<Op>
    var mongoWrites: nat
    var pgWrites: nat
    var consistencyFailures: nat

    constructor (envMode: Option<Mode>, mongoLog: seq<Op>, pgLog: seq<Op>)
      ensures View() == State(NotStarted, if envMode.Some? then envMode.value else MongoOnly, false,
                              mongoLog, pgLog, 0, 0, 0)
    {
      phase, validationPassed := NotStarted, false;
      mode := if envMode.Some? then envMode.value else MongoOnly;
      mongo, pg := mongoLog, pgLog;
      mongoWrites, pgWrites, consistencyFailures := 0, 0, 0;
    }

    ghost function View(): State
      reads this
    {
      State(phase, mode, validationPassed, mongo, pg, mongoWrites, pgWrites, consistencyFailures)
    }

    method WriteBoth(op: Op, mongoOutcome: MongoOutcome, pgOutcome: PgOutcome) returns (reply: WriteReply)
      modifies this
      ensures View() == Step(old(View()), Write(op, mongoOutcome, pgOutcome))
      ensures reply == WriteReplyOf(old(mode), mongoOutcome, pgOutcome)
    {
      var mongoResult, pgResult, raised := false, false, false;
      if MongoEnabled(mode) {
        if !mongoOutcome.NotApplied? {
          mongo := mongo + [op];
        }
        if mongoOutcome.Applied? {
          mongoResult := true;
          mongoWrites := mongoWrites + 1;
        } else {
          raised := true;
        }
      }
      if !raised && PgEnabled(mode) {
        if !pgOutcome.OperationRaises? {
          pgResult := true;
          pgWrites := pgWrites + 1;
        }
        if pgOutcome == Committed || pgOutcome == CommitRaises(true) {
          pg := pg + [op];
        }
        if !pgOutcome.Committed? {
          raised := true;
        }
      }
      if !raised {
        return WriteReply(true, mongoResult, pgResult, false);
      }
      if mode == ShadowMode {
        consistencyFailures := consistencyFailures + 1;
        return WriteReply(true, mongoResult, false, true);
      }
      return WriteReply(false, mongoResult, pgResult, true);
    }

    method Read(key: string, mongoOk: bool, pgOk: bool) returns (reply: Option<Option<string>>)
      ensures reply == ReadReply(View(), key, mongoOk, pgOk)
    {
      var fromPg := ReadsFromPg(mode);
      if fromPg && pgOk {
        return Some(Lookup(pg, key));
      }
      if !fromPg && mongoOk {
        return Some(Lookup(mongo, key));
      }
      if fromPg && MongoEnabled(mode) && mongoOk {
        return Some(Lookup(mongo, key));
      } else if !fromPg && PgEnabled(mode) && pgOk {
        return Some(Lookup(pg, key));
      }
      return None;
    }

    method StartMigration() returns (ok: bool)
      modifies this
      ensures View() == Step(old(View()), Start) && ok == Allowed(old(View()), Start)
    {
      if phase != NotStarted {
        return false;
      }
      phase, mode := Staging, ShadowMode;
      return true;
    }

    method EnableDualWriteMode() returns (ok: bool)
      modifies this
      ensures View() == Step(old(View()), EnableDualWrite) && ok == Allowed(old(View()), EnableDualWrite)
    {
      if phase != Staging && phase != Validation {
        return false;
      }
      phase, mode := DualWriting, DualWrite;
      return true;
    }

    method SwitchToPostgresql() returns (ok: bool)
      modifies this
      ensures View() == Step(old(View()), SwitchPrimary) && ok == Allowed(old(View()), SwitchPrimary)
    {
      if phase != DualWriting {
        return false;
      }
      if !validationPassed {
        return false;
      }
      phase, mode := Cutover, DualReadPg;
      return true;
    }

    method CompleteMigration(force: bool) returns (ok: bool)
      modifies this
      ensures View() == Step(old(View()), Complete(force)) && ok == Allowed(old(View()), Complete(force))
    {
      if phase != Cutover && phase != Validation {
        return false;
      }
      if !force && !validationPassed {
        return false;
      }
      phase, mode := Completed, PostgresOnly;
      return true;
    }

    method RollbackMigration()
      modifies this
      ensures View() == Step(old(View()), Rollback)
    {
      phase, mode := RolledBack, MongoOnly;
    }

    method RunValidation(counts: bool, recent: bool, states: bool) returns (ok: bool, passed: bool)
      modifies this
      ensures View() == Step(old(View()), Validate(counts, recent, states))
      ensures ok == Allowed(old(View()), Validate(counts, recent, states))
      ensures ok ==> passed == validationPassed
    {
      if !PgEnabled(mode) {
        return false, false;
      }
      phase := Validation;
      passed := true;
      if !counts {
        passed := false;
      }
      if !recent {
        passed := false;
      }
      if !states {
        passed := false;
      }
      validationPassed := passed;
      ok := true;
    }

    method SetDatabaseMode(m: Mode)
      modifies this
      ensures View() == Step(old(View()), SetMode(m))
    {
      mode := m;
      if m == DualWrite {
        phase := DualWriting;
      } else if m == PostgresOnly {
        phase := Completed;
      } else if m == MongoOnly {
        if phase != NotStarted {
          phase := RolledBack;
        }
      }
    }
  }

  // ----- runs -----

  function Run(s: State, es: seq<Event>): State {
    if es == [] then s else Step(Run(s, es[..|es| - 1]), es[|es| - 1])
  }

  predicate Fresh(s: State) {
    s.phase == NotStarted && s.mode == MongoOnly && !s.validationPassed
  }

  predicate NoSetMode(es: seq<Event>) {
    forall e :: e in es ==> !e.SetMode?
  }

  /** Each phase fixes the mode, except validation, which only rules out MongoDB alone. */
  predicate PhaseFixesMode(s: State) {
    match s.phase
    case NotStarted | RolledBack => s.mode == MongoOnly
    case Staging => s.mode == ShadowMode
    case DualWriting => s.mode == DualWrite
    case Cutover => s.mode == DualReadPg
    case Completed => s.mode == PostgresOnly
    case Validation => s.mode != MongoOnly
  }

  lemma {:induction false} GuardedRunsKeepPhaseAndMode(s: State, es: seq<Event>)
    requires Fresh(s) && NoSetMode(es)
    ensures PhaseFixesMode(Run(s, es))
  {
    if es != [] {
      GuardedRunsKeepPhaseAndMode(s, es[..|es| - 1]);
      assert es[|es| - 1] in es;
    }
  }

  /** The verdict of the last validation that a run has let through. */
  function LatestVerdict(s: State, es: seq<Event>): Option<bool> {
    if es == [] then None else
    var before, e := es[..|es| - 1], es[|es| - 1];
    if e.Validate? && Allowed(Run(s, before), e) then Some(e.counts && e.recent && e.states)
    else LatestVerdict(s, before)
  }

  lemma {:induction false} FlagIsLatestVerdict(s: State, es: seq<Event>)
    requires Fresh(s)
    ensures Run(s, es).validationPassed <==> LatestVerdict(s, es) == Some(true)
  {
    if es != [] {
      FlagIsLatestVerdict(s, es[..|es| - 1]);
    }
  }

  /** A step that moves reads to PostgreSQL or drops MongoDB. */
  predicate CutsOver(before: State, after: State) {
    after.mode != before.mode && (after.mode == DualReadPg || after.mode == PostgresOnly)
  }

  /** By a guarded route without force that happens only right after a verdict that passed, whatever came before. */
  lemma CutoverNeedsPassedValidation(s: State, es: seq<Event>, e: Event)
    requires Fresh(s) && !e.SetMode? && !(e.Complete? && e.force)
    ensures CutsOver(Run(s, es), Run(s, es + [e])) ==> LatestVerdict(s, es) == Some(true)
  {
    UnprovenCutoverExactlyWhen(s, es, e);
  }

  /** So without a passed verdict it takes force in a phase that allows completion, or a direct change of mode. */
  lemma UnprovenCutoverExactlyWhen(s: State, es: seq<Event>, e: Event)
    requires Fresh(s)
    ensures var before := Run(s, es);
            CutsOver(before, Run(s, es + [e])) && LatestVerdict(s, es) != Some(true) <==>
              && LatestVerdict(s, es) != Some(true)
              && ((e == Complete(true) && before.phase in {Cutover, Validation} && before.mode != PostgresOnly)
                  || (e.SetMode? && e.mode in {DualReadPg, PostgresOnly} && e.mode != before.mode))
  {
    assert (es + [e])[..|es|] == es;
    FlagIsLatestVerdict(s, es);
  }

  /** Forcing completion is the way around it: MongoDB is dropped after a verdict that failed. */
  lemma ForceSkipsTheVerdict(s: State)
    requires Fresh(s)
    ensures var es := [Start, Validate(false, true, true)];
            && LatestVerdict(s, es) == Some(false)
            && Run(s, es + [Complete(true)]).mode == PostgresOnly
  {
    var es := [Start, Validate(false, true, true)];
    assert es[..1] == [Start] && [Start][..0] == [];
    assert Run(s, []) == s && Run(s, [Start]).mode == ShadowMode;
    assert (es + [Complete(true)])[..2] == es;
  }

  /** Once rolled back, no guarded route leaves that state, forced completion included. */
  lemma {:induction false} RollbackIsAbsorbing(s: State, es: seq<Event>)
    requires s.phase == RolledBack && s.mode == MongoOnly && NoSetMode(es)
    ensures Run(s, es).phase == RolledBack && Run(s, es).mode == MongoOnly
  {
    if es != [] {
      RollbackIsAbsorbing(s, es[..|es| - 1]);
      assert es[|es| - 1] in es;
    }
  }

  /** The moves of the migration that the guarded routes allow, as a phase before and a phase after. */
  const MOVES: set<(Phase, Phase)> := {
    (NotStarted, Staging), (Staging, DualWriting), (Validation, DualWriting), (DualWriting, Cutover),
    (Cutover, Completed), (Validation, Completed),
    (Staging, Validation), (DualWriting, Validation), (Cutover, Validation), (Completed, Validation),
    (NotStarted, RolledBack), (Staging, RolledBack), (DualWriting, RolledBack), (Cutover, RolledBack),
    (Validation, RolledBack), (Completed, RolledBack)}

  /** In every guarded run the phase moves along one of these edges, and every edge is open to some event. */
  lemma PhaseMovesAlongEdges(s: State, es: seq<Event>, e: Event)
    requires Fresh(s) && NoSetMode(es) && !e.SetMode?
    ensures var before, after := Run(s, es).phase, Run(s, es + [e]).phase;
            before != after ==> (before, after) in MOVES
  {
    hide Run;
    GuardedRunsKeepPhaseAndMode(s, es);
    RunSnoc(s, es, e);
  }

  lemma EveryEdgeIsOpen(s: State, p: Phase)
    requires PhaseFixesMode(s) && s.validationPassed && (s.phase, p) in MOVES
    ensures exists e: Event :: !e.SetMode? && Step(s, e).phase == p && Step(s, e).mongo == s.mongo
  {
    var e := match p
             case Staging => Start
             case DualWriting => EnableDualWrite
             case Cutover => SwitchPrimary
             case Completed => Complete(false)
             case Validation => Validate(true, true, true)
             case RolledBack | NotStarted => Rollback;
    assert Step(s, e).phase == p;
  }

  /**
    A direct change of mode keeps phase and mode in step exactly when the mode is one that sets its own
    phase, or one that the phase allows anyway; and a migration is never started or unstarted by it.
  */
  lemma SetModeKeepsStepExactlyWhen(s: State, m: Mode)
    ensures var after := Step(s, SetMode(m));
            && after.mode == m
            && (PhaseFixesMode(after) <==>
                  || m == MongoOnly || m == DualWrite || m == PostgresOnly
                  || (m == ShadowMode && s.phase in {Staging, Validation})
                  || (m == DualReadPg && s.phase in {Cutover, Validation}))
            && (m == MongoOnly ==> (after.phase == NotStarted <==> s.phase == NotStarted))
            && (m == ShadowMode || m == DualReadPg ==> after.phase == s.phase)
            && (m == DualWrite ==> after.phase == DualWriting) && (m == PostgresOnly ==> after.phase == Completed)
  {
  }

  // ----- what a call reports -----

  /** Some store the call came to raised. */
  predicate Failed(mode: Mode, mongoOutcome: MongoOutcome, pgOutcome: PgOutcome) {
    match mode
    case MongoOnly => !mongoOutcome.Applied?
    case PostgresOnly => !pgOutcome.Committed?
    case DualWrite | DualReadPg | ShadowMode => !(mongoOutcome.Applied? && pgOutcome.Committed?)
  }

  /**
    What the reply tells: the error flag is set exactly when a store raised; that makes the call a
    failure everywhere but in shadow mode; and each result is there exactly when its operation returned,
    except that shadow mode drops PostgreSQL's when the commit then raised.
  */
  lemma ReplyTells(mode: Mode, mongoOutcome: MongoOutcome, pgOutcome: PgOutcome)
    ensures var reply := WriteReplyOf(mode, mongoOutcome, pgOutcome);
            && (reply.error <==> Failed(mode, mongoOutcome, pgOutcome))
            && (reply.success <==> mode == ShadowMode || !reply.error)
            && (reply.mongoResult <==> mode != PostgresOnly && mongoOutcome.Applied?)
            && (reply.pgResult <==>
                  && !pgOutcome.OperationRaises? && mode != MongoOnly
                  && (mode == PostgresOnly || mongoOutcome.Applied?)
                  && (mode == ShadowMode ==> pgOutcome.Committed?))
  {
  }

  function HiddenFailures(s: State, es: seq<Event>): nat {
    if es == [] then 0 else
    var mode, e := Run(s, es[..|es| - 1]).mode, es[|es| - 1];
    HiddenFailures(s, es[..|es| - 1])
    + if e.Write? && mode == ShadowMode && Failed(mode, e.mongoOutcome, e.pgOutcome) then 1 else 0
  }

  /** Over every run the consistency counter rises by exactly the failures that shadow mode hid. */
  lemma {:induction false} ConsistencyCounterIsExact(s: State, es: seq<Event>)
    ensures Run(s, es).consistencyFailures - s.consistencyFailures == HiddenFailures(s, es)
  {
    if es != [] {
      ConsistencyCounterIsExact(s, es[..|es| - 1]);
    }
  }

  // ----- what the logs keep -----

  ghost predicate Subsequence<T>(a: seq<T>, b: seq<T>) {
    if a == [] then true
    else if b == [] then false
    else Subsequence(a, b[..|b| - 1])
         || (a[|a| - 1] == b[|b| - 1] && Subsequence(a[..|a| - 1], b[..|b| - 1]))
  }

  lemma SubsequenceAppend<T>(a: seq<T>, b: seq<T>, x: T)
    requires Subsequence(a, b)
    ensures Subsequence(a, b + [x]) && Subsequence(a + [x], b + [x])
  {
    assert (b + [x])[..|b|] == b && (a + [x])[..|a|] == a;
  }

  /** What it means: strictly rising positions of b at which the entries of a stand. */
  lemma {:induction false} SubsequencePositions<T>(a: seq<T>, b: seq<T>) returns (at: seq<nat>)
    requires Subsequence(a, b)
    ensures |at| == |a|
    ensures forall i :: 0 <= i < |at| ==> at[i] < |b| && b[at[i]] == a[i]
    ensures forall i, j :: 0 <= i < j < |at| ==> at[i] < at[j]
  {
    if a == [] {
      return [];
    }
    var front := b[..|b| - 1];
    if Subsequence(a, front) {
      at := SubsequencePositions(a, front);
    } else {
      var before := SubsequencePositions(a[..|a| - 1], front);
      at := before + [|b| - 1];
    }
  }

  lemma {:induction false} LogsOnlyGrow(s: State, es: seq<Event>, k: nat)
    requires k <= |es|
    ensures Run(s, es[..k]).mongo <= Run(s, es).mongo && Run(s, es[..k]).pg <= Run(s, es).pg
  {
    hide Allowed;
    if k == |es| {
      assert es[..k] == es;
    } else {
      LogsOnlyGrow(s, es[..|es| - 1], k);
      assert es[..|es| - 1][..k] == es[..k];
    }
  }

  /** A write acknowledged while both stores are written is in both, at the end of what they held, for ever after. */
  lemma AcknowledgedWriteStays(s: State, es: seq<Event>, k: nat)
    requires k < |es| && es[k].Write?
    requires Run(s, es[..k]).mode == DualWrite || Run(s, es[..k]).mode == DualReadPg
    requires WriteReplyOf(Run(s, es[..k]).mode, es[k].mongoOutcome, es[k].pgOutcome).success
    ensures Run(s, es[..k]).mongo + [es[k].op] <= Run(s, es).mongo
    ensures Run(s, es[..k]).pg + [es[k].op] <= Run(s, es).pg
  {
    hide Run;
    assert es[..k + 1] == es[..k] + [es[k]];
    RunSnoc(s, es[..k], es[k]);
    LogsOnlyGrow(s, es, k + 1);
  }

  /** No state of the run writes to PostgreSQL alone. */
  predicate AlwaysMongo(s: State, es: seq<Event>) {
    MongoEnabled(s.mode) && (es != [] ==> MongoEnabled(Run(s, es).mode) && AlwaysMongo(s, es[..|es| - 1]))
  }

  /** While MongoDB is enabled, whatever PostgreSQL has applied MongoDB has too, in the same order. */
  lemma {:induction false} PostgresFollowsMongo(s: State, es: seq<Event>)
    requires Subsequence(s.pg, s.mongo) && AlwaysMongo(s, es)
    ensures Subsequence(Run(s, es).pg, Run(s, es).mongo)
  {
    if es != [] {
      var before, e := es[..|es| - 1], es[|es| - 1];
      PostgresFollowsMongo(s, before);
      assert AlwaysMongo(s, before);
      if e.Write? {
        MongoStillEnabled(s, before);
        SubsequenceAppend(Run(s, before).pg, Run(s, before).mongo, e.op);
      }
    }
  }

  lemma MongoStillEnabled(s: State, es: seq<Event>)
    requires AlwaysMongo(s, es)
    ensures MongoEnabled(Run(s, es).mode)
  {
  }

  /** A store raises although it has applied the write, which is then in every enabled store. */
  predicate AppliedButRaises(mode: Mode, mongoOutcome: MongoOutcome, pgOutcome: PgOutcome) {
    if PgEnabled(mode) then PgAttempted(mode, mongoOutcome) && pgOutcome == CommitRaises(true)
    else mongoOutcome.AppliedUntold?
  }

  /**
    Every enabled store has applied the write exactly when the call succeeds, outside shadow mode, or
    the last store raised after applying it; so success there means applied everywhere.
  */
  lemma SuccessMeansApplied(s: State, op: Op, mongoOutcome: MongoOutcome, pgOutcome: PgOutcome)
    requires s.mode != ShadowMode
    ensures var s' := Step(s, Write(op, mongoOutcome, pgOutcome));
            && s'.mongo == (if MongoEnabled(s.mode) then s.mongo + [op] else s.mongo)
            && s'.pg == (if PgEnabled(s.mode) then s.pg + [op] else s.pg)
            <==> || WriteReplyOf(s.mode, mongoOutcome, pgOutcome).success
                 || AppliedButRaises(s.mode, mongoOutcome, pgOutcome)
    ensures WriteReplyOf(s.mode, mongoOutcome, pgOutcome).success ==>
              !AppliedButRaises(s.mode, mongoOutcome, pgOutcome)
  {
    assert s.mongo + [op] != s.mongo by { assert |s.mongo + [op]| != |s.mongo|; }
    assert s.pg + [op] != s.pg by { assert |s.pg + [op]| != |s.pg|; }
  }

  /**
    A dual write is not atomic: a failed call leaves the stores as they were exactly when MongoDB did
    not apply it, and leaves it in both exactly when the commit raised after going through. Otherwise
    MongoDB alone keeps the write it was told had failed.
  */
  lemma FailedWriteUndoneExactlyWhenMongoFailed(s: State, op: Op, mongoOutcome: MongoOutcome, pgOutcome: PgOutcome)
    requires s.mode == DualWrite || s.mode == DualReadPg
    requires !WriteReplyOf(s.mode, mongoOutcome, pgOutcome).success
    ensures var s' := Step(s, Write(op, mongoOutcome, pgOutcome));
            && (s'.mongo == s.mongo && s'.pg == s.pg <==> mongoOutcome.NotApplied?)
            && (s'.mongo != s.mongo && s'.pg != s.pg <==>
                  mongoOutcome.Applied? && pgOutcome == CommitRaises(true))
            && (s'.mongo == s.mongo ==> s'.pg == s.pg)
  {
    assert |s.mongo + [op]| != |s.mongo|;
    assert |s.pg + [op]| != |s.pg|;
  }

  /** In shadow mode every call succeeds; the write is in no store exactly when MongoDB did not apply it. */
  lemma ShadowAcknowledgesLostWrites(s: State, op: Op, mongoOutcome: MongoOutcome, pgOutcome: PgOutcome)
    requires s.mode == ShadowMode
    ensures var s' := Step(s, Write(op, mongoOutcome, pgOutcome));
            && WriteReplyOf(s.mode, mongoOutcome, pgOutcome).success
            && (s'.mongo == s.mongo <==> mongoOutcome.NotApplied?)
            && (mongoOutcome.NotApplied? ==> s'.pg == s.pg)
  {
    assert |s.mongo + [op]| != |s.mongo|;
  }

  /** An acknowledged write has not reached MongoDB exactly when PostgreSQL is alone, or shadow mode hid a failure. */
  lemma AcknowledgedWithoutMongo(s: State, op: Op, mongoOutcome: MongoOutcome, pgOutcome: PgOutcome)
    requires WriteReplyOf(s.mode, mongoOutcome, pgOutcome).success
    ensures var s' := Step(s, Write(op, mongoOutcome, pgOutcome));
            s'.mongo == s.mongo <==> s.mode == PostgresOnly || (s.mode == ShadowMode && mongoOutcome.NotApplied?)
  {
    assert |s.mongo + [op]| != |s.mongo|;
  }

  /** The writes a run acknowledged while it wrote to both stores and told failures apart. */
  function AcknowledgedInDual(s: State, es: seq<Event>): seq<Op> {
    if es == [] then [] else
    var before, e := es[..|es| - 1], es[|es| - 1];
    var mode := Run(s, before).mode;
    if e.Write? && (mode == DualWrite || mode == DualReadPg) && WriteReplyOf(mode, e.mongoOutcome, e.pgOutcome).success
    then AcknowledgedInDual(s, before) + [e.op]
    else AcknowledgedInDual(s, before)
  }

  /** They are all in both stores, in order, whatever else the run did; so rollback loses none of them. */
  lemma {:induction false} AcknowledgedWritesAreKept(s: State, es: seq<Event>)
    ensures Subsequence(AcknowledgedInDual(s, es), Run(s, es).mongo)
    ensures Subsequence(AcknowledgedInDual(s, es), Run(s, es).pg)
    ensures Run(s, es + [Rollback]).mongo == Run(s, es).mongo
    ensures forall key, pgOk ::
              ReadReply(Run(s, es + [Rollback]), key, true, pgOk) == Some(Lookup(Run(s, es).mongo, key))
  {
    hide Step, WriteReplyOf;
    RolledBackReads(s, es);
    if es != [] {
      var before, e := es[..|es| - 1], es[|es| - 1];
      AcknowledgedWritesAreKept(s, before);
      KeepsAcknowledged(Run(s, before), e, AcknowledgedInDual(s, before));
    }
  }

  lemma RolledBackReads(s: State, es: seq<Event>)
    ensures Run(s, es + [Rollback]).mongo == Run(s, es).mongo
    ensures forall key, pgOk ::
              ReadReply(Run(s, es + [Rollback]), key, true, pgOk) == Some(Lookup(Run(s, es).mongo, key))
  {
    hide Lookup;
    RunSnoc(s, es, Rollback);
  }

  lemma KeepsAcknowledged(s: State, e: Event, acknowledged: seq<Op>)
    requires Subsequence(acknowledged, s.mongo) && Subsequence(acknowledged, s.pg)
    ensures Subsequence(acknowledged, Step(s, e).mongo) && Subsequence(acknowledged, Step(s, e).pg)
    ensures e.Write? && (s.mode == DualWrite || s.mode == DualReadPg) &&
            WriteReplyOf(s.mode, e.mongoOutcome, e.pgOutcome).success ==>
              Subsequence(acknowledged + [e.op], Step(s, e).mongo) && Subsequence(acknowledged + [e.op], Step(s, e).pg)
  {
    hide Subsequence;
    if e.Write? {
      SubsequenceAppend(acknowledged, s.mongo, e.op);
      SubsequenceAppend(acknowledged, s.pg, e.op);
    }
  }

  /**
    A write acknowledged by PostgreSQL alone is lost by rollback: a run through the guarded routes
    only, in which every store operation succeeds, after which MongoDB never saw the write.
  */
  lemma RollbackLosesPostgresOnlyWrites(s: State, key: string, value: string)
    requires Fresh(s) && Lookup(s.mongo, key) == None
    ensures var write := Write(Put(key, value), Applied, Committed);
            var es := [Start, Validate(true, true, true), Complete(false)];
            && WriteReplyOf(Run(s, es).mode, Applied, Committed).success
            && ReadReply(Run(s, es + [write]), key, true, true) == Some(Some(value))
            && ReadReply(Run(s, es + [write] + [Rollback]), key, true, true) == Some(None)
  {
    hide Step, Run, Contents, ReadReply;
    var write := Write(Put(key, value), Applied, Committed);
    var es := [Start, Validate(true, true, true), Complete(false)];
    var done := s.(phase := Completed, mode := PostgresOnly, validationPassed := true);
    CompletedRun(s);
    RunSnoc(s, es, write);
    RunSnoc(s, es + [write], Rollback);
    WriteThenRollback(done, key, value);
  }

  lemma CompletedRun(s: State)
    requires Fresh(s)
    ensures Run(s, [Start, Validate(true, true, true), Complete(false)]) ==
            s.(phase := Completed, mode := PostgresOnly, validationPassed := true)
  {
    hide Run, AfterWrite;
    RunNothing(s);
    RunSnoc(s, [], Start);
    assert [] + [Start] == [Start];
    RunSnoc(s, [Start], Validate(true, true, true));
    RunSnoc(s, [Start] + [Validate(true, true, true)], Complete(false));
    assert [Start, Validate(true, true, true), Complete(false)] ==
           [Start] + [Validate(true, true, true)] + [Complete(false)];
  }

  lemma WriteThenRollback(s: State, key: string, value: string)
    requires s.mode == PostgresOnly
    ensures var t := Step(s, Write(Put(key, value), Applied, Committed));
            && ReadReply(t, key, true, true) == Some(Some(value))
            && ReadReply(Step(t, Rollback), key, true, true) == Some(Lookup(s.mongo, key))
  {
    assert (s.pg + [Put(key, value)])[..|s.pg|] == s.pg;
  }

  lemma RunNothing(s: State)
    ensures Run(s, []) == s
  {
  }

  lemma RunSnoc(s: State, es: seq<Event>, e: Event)
    ensures Run(s, es + [e]) == Step(Run(s, es), e)
  {
    assert (es + [e])[..|es|] == es;
  }

  /**
    Where reads go, whatever the stores hold: with both stores up, PostgreSQL answers exactly when it is
    alone or the cutover has been made, and MongoDB in the three other modes. With the primary down the
    other store answers if it is enabled and up, and nothing does otherwise.
  */
  lemma ReadsComeFrom(s: State, key: string, mongoOk: bool, pgOk: bool)
    ensures var fromPg, fromMongo := Some(Lookup(s.pg, key)), Some(Lookup(s.mongo, key));
            ReadReply(s, key, mongoOk, pgOk) ==
            match s.mode
            case MongoOnly => if mongoOk then fromMongo else None
            case DualWrite | ShadowMode => if mongoOk then fromMongo else if pgOk then fromPg else None
            case DualReadPg => if pgOk then fromPg else if mongoOk then fromMongo else None
            case PostgresOnly => if pgOk then fromPg else None
  {
    hide Lookup;
  }

  /** An accepted switch takes every key's answer from what MongoDB holds to what PostgreSQL holds. */
  lemma SwitchMovesReads(s: State, es: seq<Event>, key: string)
    requires Fresh(s) && NoSetMode(es) && Allowed(Run(s, es), SwitchPrimary)
    ensures var before, after := Run(s, es), Run(s, es + [SwitchPrimary]);
            && before.mongo == after.mongo && before.pg == after.pg
            && ReadReply(before, key, true, true) == Some(Lookup(before.mongo, key))
            && ReadReply(after, key, true, true) == Some(Lookup(before.pg, key))
  {
    hide Lookup, Run;
    GuardedRunsKeepPhaseAndMode(s, es);
    RunSnoc(s, es, SwitchPrimary);
  }

  /** Both stores are written, and every write of the run is acknowledged. */
  predicate AllDualAndAcknowledged(s: State, es: seq<Event>) {
    es != [] ==>
      var before, e := es[..|es| - 1], es[|es| - 1];
      var mode := Run(s, before).mode;
      && AllDualAndAcknowledged(s, before)
      && (e.Write? ==>
            && (mode == DualWrite || mode == DualReadPg)
            && WriteReplyOf(mode, e.mongoOutcome, e.pgOutcome).success)
  }

  /**
    If the stores start equal and every write is acknowledged in a dual mode, they stay equal, and
    then it does not matter where a read goes: every read that answers at all gives the same answer,
    from the primary or the fallback, before the primary is switched or after.
  */
  lemma {:induction false} EqualStoresAnswerAlike(s: State, es: seq<Event>, key: string)
    requires s.mongo == s.pg && AllDualAndAcknowledged(s, es)
    ensures var t := Run(s, es);
            && t.mongo == t.pg
            && (forall mongoOk, pgOk :: ReadReply(t, key, mongoOk, pgOk) in {None, Some(Lookup(t.mongo, key))})
            && (forall mongoOk, pgOk ::
                  ReadReply(Step(t, SwitchPrimary), key, mongoOk, pgOk) in {None, Some(Lookup(t.mongo, key))})
            && (forall mongoOk, pgOk :: (mongoOk || pgOk) && (t.mode == DualWrite || t.mode == DualReadPg) ==>
                  ReadReply(t, key, mongoOk, pgOk) == Some(Lookup(t.mongo, key)))
  {
    if es != [] {
      EqualStoresAnswerAlike(s, es[..|es| - 1], key);
    }
  }

  /** The writes of a run that MongoDB applied and raised on: its counter misses them. */
  function Uncounted(s: State, es: seq<Event>): nat {
    if es == [] then 0 else
    var e := es[|es| - 1];
    Uncounted(s, es[..|es| - 1])
    + if e.Write? && MongoEnabled(Run(s, es[..|es| - 1]).mode) && e.mongoOutcome.AppliedUntold? then 1 else 0
  }

  /** The writes of a run that PostgreSQL counted and then failed to commit. */
  function Uncommitted(s: State, es: seq<Event>): nat {
    if es == [] then 0 else
    var e := es[|es| - 1];
    Uncommitted(s, es[..|es| - 1])
    + if e.Write? && PgAttempted(Run(s, es[..|es| - 1]).mode, e.mongoOutcome) && e.pgOutcome == CommitRaises(false)
      then 1 else 0
  }

  /**
    Over a run, from whatever data, MongoDB's counter falls behind its log by exactly the writes it
    applied and raised on, and PostgreSQL's runs ahead of its log by exactly the commits that failed.
  */
  lemma {:induction false} WriteCounters(s: State, es: seq<Event>)
    ensures Run(s, es).mongoWrites - s.mongoWrites + Uncounted(s, es) == |Run(s, es).mongo| - |s.mongo|
    ensures Run(s, es).pgWrites - s.pgWrites == |Run(s, es).pg| - |s.pg| + Uncommitted(s, es)
  {
    hide Step, PgAttempted;
    if es != [] {
      WriteCounters(s, es[..|es| - 1]);
      StepCounts(Run(s, es[..|es| - 1]), es[|es| - 1]);
    }
  }

  /** A step counts what MongoDB answered and what PostgreSQL returned, and logs what they applied. */
  lemma StepCounts(s: State, e: Event)
    ensures var t := Step(s, e);
            && t.mongoWrites - s.mongoWrites
               + (if e.Write? && MongoEnabled(s.mode) && e.mongoOutcome.AppliedUntold? then 1 else 0) ==
               |t.mongo| - |s.mongo|
            && t.pgWrites - s.pgWrites ==
               |t.pg| - |s.pg|
               + if e.Write? && PgAttempted(s.mode, e.mongoOutcome) && e.pgOutcome == CommitRaises(false) then 1 else 0
  {
  }
}
