/**
 * The transactional executor: idempotency record, attempt, batch and step rows around the
 * settlement commands, as a function of the whole database. One call is one transaction.
 */
module Executor {
  import opened Prelude
  import opened MapSums
  import opened Tables
  import opened Operations
  import opened Plans
  import opened Authorization

  datatype RunState = RunInProgress | RunCompleted | RunFailed
  datatype StepState = Pending | Running | StepCompleted | StepFailed

  datatype OperationKind =
    | CreateTradeKind | ModifyTradeKind | CreateStackKind | StackToEscrowKind | NewOwnerStackKind
    | PreviousOwnerStackKind | MergeKind | CreateWalletEscrowKind | WalletToEscrowKind | NewOwnerWalletKind
    | PreviousOwnerWalletKind

  datatype KeyRow = KeyRow(fingerprint: Fingerprint, state: RunState, result: Option<Uuid>, failure: Option<Error>)
  datatype AttemptRow = AttemptRow(key: string, number: int, state: RunState, failure: Option<Error>)
  datatype BatchRow = BatchRow(request: Uuid, key: string, actor: Option<int>, externalId: Option<string>,
                               state: RunState, failure: Option<Error>)
  datatype StepRow = StepRow(kind: OperationKind, command: Command, state: StepState, output: Output,
                             failure: Option<Error>)

  datatype OperationState = Queued | Processing | OpSucceeded | OpFailed | OpCancelled | OpExpired

  /** The failure_code column: NULL, the publisher's code, or the status code of a settlement error. */
  datatype FailureCode = NoCode | PublicationFailed | StatusCode(error: Error)

  /** The durable record of a queued operation. */
  datatype OperationRow = OperationRow(key: string, requestFingerprint: string, intent: Intent, actor: int,
                                       externalId: Option<string>, state: OperationState, batch: Option<Uuid>,
                                       failureCode: FailureCode, published: bool)

  /** The rows of settlement_step are grouped by batch, in step_index order. */
  datatype Audit = Audit(
    keys: map<string, KeyRow>,
    attempts: map<Uuid, AttemptRow>,
    batches: map<Uuid, BatchRow>,
    steps: map<Uuid, seq<StepRow>>,
    operations: map<Uuid, OperationRow>)

  datatype Database = Database(tables: Tables, audit: Audit)

  /** Random identifiers drawn by the call, and what each step reads from outside. */
  datatype BatchEnv = BatchEnv(request: Uuid, batch: Uuid, steps: seq<StepEnv>)

  datatype StepResult = StepResult(index: nat, kind: OperationKind, output: Output)

  datatype Outcome =
    | Rejected(error: Error)                              // refused before the savepoint: nothing is written
    | Replayed(batch: Uuid, steps: seq<StepResult>)       // the key was completed earlier
    | Failed(batch: Uuid, error: Error)                   // a step failed: only audit rows are written
    | CommitRefused                                       // a deferred constraint failed at COMMIT: nothing is written
    | Committed(batch: Uuid, steps: seq<StepResult>)

  datatype Executed = Executed(db: Database, outcome: Outcome)

  // ---- step kinds

  function KindOf(c: Command): OperationKind {
    match c
    case CreateTradeRow(_, _, _, _, _, _, _, _, _) => CreateTradeKind
    case ModifyTradeState(_, _, _, _) => ModifyTradeKind
    case CreateEmptyStack(_, _, _, _) => CreateStackKind
    case StackToEscrow(_, _, _, _) => StackToEscrowKind
    case EscrowToNewOwnerStack(_, _, _) => NewOwnerStackKind
    case EscrowToPreviousOwnerStack(_, _, _) => PreviousOwnerStackKind
    case MergeStacks(_, _) => MergeKind
    case CreateEmptyWalletEscrow(_, _, _, _) => CreateWalletEscrowKind
    case WalletToEscrow(_, _, _, _) => WalletToEscrowKind
    case EscrowToNewOwnerWallet(_, _, _) => NewOwnerWalletKind
    case EscrowToPreviousOwnerWallet(_, _, _) => PreviousOwnerWalletKind
  }

  // ---- running the steps

  datatype RunResult = Finished(tables: Tables, outputs: seq<Output>) | Stopped(index: nat, error: Error)

  /** The first `n` operations in order, stopping at the first that fails. */
  ghost function Run(b: Tables, ops: seq<Command>, envs: seq<StepEnv>, batch: Uuid, n: nat): (r: RunResult)
    requires n <= |ops| == |envs|
    ensures r.Finished? ==> |r.outputs| == n
    ensures r.Stopped? ==> r.index < n
  {
    if n == 0 then Finished(b, []) else
      var before := Run(b, ops, envs, batch, n - 1);
      if before.Stopped? then before else
        match Apply(before.tables, ops[n - 1], envs[n - 1], StepId(batch, n - 1))
        case Ok(a) => Finished(a.tables, before.outputs + [a.output])
        case Err(e) => Stopped(n - 1, e)
  }

  lemma {:induction false} RunStuck(b: Tables, ops: seq<Command>, envs: seq<StepEnv>, batch: Uuid, i: nat, n: nat)
    requires i <= n <= |ops| == |envs|
    requires Run(b, ops, envs, batch, i).Stopped?
    ensures Run(b, ops, envs, batch, n) == Run(b, ops, envs, batch, i)
  {
    hide Apply;
    if i < n { RunStuck(b, ops, envs, batch, i, n - 1); }
  }

  // ---- the deferred constraint triggers, evaluated at COMMIT

  ghost predicate TradeBalanced(b: Tables, t: Uuid)
    requires t in b.trades
  {
    && b.trades[t].remaining == Sum(b.stackEscrows, ActiveItems(t))
    && (!b.trades[t].state.Open? ==>
        Sum(b.stackEscrows, ActiveItems(t)) == 0 && Sum(b.walletEscrows, ActiveIsk(t)) == 0)
  }

  predicate Projects(s: Stack, records: seq<StackRecord>) {
    match Latest(records)
    case None => false
    case Some(r) =>
      && s.owner == r.entry.owner && s.itemType == r.entry.itemType && s.station == r.entry.station
      && s.quantity == r.entry.after && s.state == r.entry.stateAfter
      && s.version == r.entry.versionAfter && s.checksum == r.entry.checksumAfter
  }

  ghost predicate CommitOk(b: Tables) {
    && (forall t :: t in b.trades ==> TradeBalanced(b, t))
    && (forall s :: s in b.stacks ==> Projects(b.stacks[s], RowsOf(b.stackLedger, s)))
  }

  // ---- audit rows

  /** COALESCE(MAX(attempt_number), 0) over the attempts of a key. */
  ghost predicate IsLastNumber(attempts: map<Uuid, AttemptRow>, key: string, n: int) {
    && (forall r :: r in attempts && attempts[r].key == key ==> attempts[r].number <= n)
    && ((n == 0 && forall r :: r in attempts ==> attempts[r].key != key)
        || (exists r :: r in attempts && attempts[r].key == key && attempts[r].number == n))
  }

  method FindLastNumber(attempts: map<Uuid, AttemptRow>, key: string) returns (n: int)
    ensures IsLastNumber(attempts, key, n)
  {
    var rest := attempts.Keys;
    var found: Option<Uuid> := None;
    while rest != {}
      invariant rest <= attempts.Keys
      invariant found.None? ==> forall r :: r in attempts && r !in rest ==> attempts[r].key != key
      invariant found.Some? ==> found.value in attempts && attempts[found.value].key == key
      invariant found.Some? ==>
                  forall r :: r in attempts && r !in rest && attempts[r].key == key ==>
                    attempts[r].number <= attempts[found.value].number
      decreases rest
    {
      var r :| r in rest;
      if attempts[r].key == key && (found.None? || attempts[found.value].number < attempts[r].number) {
        found := Some(r);
      }
      rest := rest - {r};
    }
    n := if found.Some? then attempts[found.value].number else 0;
  }

  ghost function LastNumber(attempts: map<Uuid, AttemptRow>, key: string): int {
    if exists n :: IsLastNumber(attempts, key, n) then var n :| IsLastNumber(attempts, key, n); n else 0
  }

  function PendingSteps(ops: seq<Command>): seq<StepRow> {
    seq(|ops|, i requires 0 <= i < |ops| => StepRow(KindOf(ops[i]), ops[i], Pending, [], None))
  }

  function FailedSteps(ops: seq<Command>, k: nat, e: Error): (rows: seq<StepRow>) {
    seq(|ops|, i requires 0 <= i < |ops| =>
      if i <= k then StepRow(KindOf(ops[i]), ops[i], StepFailed, [], Some(e))
      else StepRow(KindOf(ops[i]), ops[i], Pending, [], None))
  }

  function CompletedSteps(ops: seq<Command>, outputs: seq<Output>): (rows: seq<StepRow>)
    requires |ops| == |outputs|
  {
    seq(|ops|, i requires 0 <= i < |ops| => StepRow(KindOf(ops[i]), ops[i], StepCompleted, outputs[i], None))
  }

  function ResultsOf(ops: seq<Command>, outputs: seq<Output>): (rows: seq<StepResult>)
    requires |ops| == |outputs|
  {
    seq(|ops|, i requires 0 <= i < |ops| => StepResult(i, KindOf(ops[i]), outputs[i]))
  }

  /** The step rows of a batch whose first steps have completed. */
  function DoneSteps(ops: seq<Command>, outputs: seq<Output>): (rows: seq<StepRow>)
    requires |outputs| <= |ops|
    ensures |rows| == |ops|
  {
    seq(|ops|, i requires 0 <= i < |ops| =>
      if i < |outputs| then StepRow(KindOf(ops[i]), ops[i], StepCompleted, outputs[i], None)
      else StepRow(KindOf(ops[i]), ops[i], Pending, [], None))
  }

  lemma NoneDone(ops: seq<Command>)
    ensures DoneSteps(ops, []) == PendingSteps(ops) && ResultsOf(ops[..0], []) == []
  {
  }

  lemma AllDone(ops: seq<Command>, outputs: seq<Output>)
    requires |ops| == |outputs|
    ensures DoneSteps(ops, outputs) == CompletedSteps(ops, outputs)
  {
  }

  lemma DoneOneMore(ops: seq<Command>, outputs: seq<Output>, output: Output)
    requires |outputs| < |ops|
    ensures var i := |outputs|;
            var before := DoneSteps(ops, outputs);
            && before[i := before[i].(state := StepCompleted, output := output, failure := None)] ==
               DoneSteps(ops, outputs + [output])
            && ResultsOf(ops[..i + 1], outputs + [output]) ==
               ResultsOf(ops[..i], outputs) + [StepResult(i, KindOf(ops[i]), output)]
  {
  }

  /** load_replayed_steps. */
  function ReplayedSteps(rows: seq<StepRow>): seq<StepResult> {
    seq(|rows|, i requires 0 <= i < |rows| => StepResult(i, rows[i].kind, rows[i].output))
  }

  /** complete_operation_if_present. */
  function CompleteOperation(operations: map<Uuid, OperationRow>, key: string, batch: Uuid): map<Uuid, OperationRow> {
    map o | o in operations ::
      var row := operations[o];
      if row.key == key && (row.state.Queued? || row.state.Processing? || row.state.OpSucceeded?)
      then row.(state := OpSucceeded, batch := Some(batch)) else row
  }

  ghost function AttemptAudit(a: Audit, batch: Batch, request: Uuid, id: Uuid, state: RunState, failure: Option<Error>,
                              result: Option<Uuid>, steps: seq<StepRow>): Audit
  {
    a.(keys := a.keys[batch.key := KeyRow(FingerprintOf(batch), state, result, failure)],
       attempts := a.attempts[request := AttemptRow(batch.key, LastNumber(a.attempts, batch.key) + 1, state, failure)],
       batches := a.batches[id := BatchRow(request, batch.key, batch.actor, batch.externalId, state, failure)],
       steps := a.steps[id := steps])
  }

  lemma InProgressRows(base: Audit, batch: Batch, request: Uuid, id: Uuid, steps: seq<StepRow>)
    ensures var a := AttemptAudit(base, batch, request, id, RunInProgress, None, None, steps);
            batch.key in a.keys && request in a.attempts && id in a.batches && id in a.steps && a.steps[id] == steps
  {
  }

  /** Marking the rows of an attempt FAILED, one table after the other, gives the rows of a failed attempt. */
  lemma FailedRows(base: Audit, batch: Batch, request: Uuid, id: Uuid, e: Error, pending: seq<StepRow>,
                   failed: seq<StepRow>)
    ensures var a := AttemptAudit(base, batch, request, id, RunInProgress, None, None, pending);
            AttemptAudit(base, batch, request, id, RunFailed, Some(e), None, failed) ==
            a.(steps := a.steps[id := failed],
               batches := a.batches[id := a.batches[id].(state := RunFailed, failure := Some(e))],
               attempts := a.attempts[request := a.attempts[request].(state := RunFailed, failure := Some(e))],
               keys := a.keys[batch.key := a.keys[batch.key].(state := RunFailed, failure := Some(e), result := None)])
  {
    hide LastNumber, FingerprintOf;
  }

  predicate AssertionHolds(batch: Batch) {
    batch.assertion.None? || batch.assertion.value == FingerprintOf(batch)
  }

  /** Whether the call may start an attempt, replays a completed one, or is refused on its key. */
  datatype Admission = Refuse(error: Error) | Replay(batch: Uuid) | Start

  function Admit(a: Audit, batch: Batch): Admission {
    if batch.intent != Unspecified && ValidatePlan(batch).Err? then Refuse(ValidatePlan(batch).error)
    else if batch.operations == [] then Refuse(InvalidArgument)
    else if batch.key !in a.keys then
      if AssertionHolds(batch) then Start else Refuse(InvalidArgument)
    else
      var row := a.keys[batch.key];
      if row.fingerprint != FingerprintOf(batch) then Refuse(Conflict)
      else if !AssertionHolds(batch) then Refuse(InvalidArgument)
      else match row.state
        case RunCompleted => if row.result.Some? then Replay(row.result.value) else Refuse(FailedPrecondition)
        case RunInProgress => Refuse(Conflict)
        case RunFailed => Start
  }

  lemma AdmittedStart(a: Audit, batch: Batch)
    ensures Admit(a, batch).Start? ==>
              batch.operations != [] && (batch.intent != Unspecified ==> ValidatePlan(batch).Ok?)
  {
  }

  function RequestOf(batch: Batch, env: BatchEnv): Uuid { IdOr(batch.requestId, env.request) }

  /** Refusals between admission and the savepoint: authorization, and primary keys of the attempt and batch rows. */
  function Prepare(db: Database, batch: Batch, env: BatchEnv): Result<()>
    requires batch.intent != Unspecified ==> ValidatePlan(batch).Ok?
  {
    var _ :- if batch.intent == Unspecified then Ok(()) else AuthorizePlan(db.tables, batch);
    :- Need(RequestOf(batch, env) !in db.audit.attempts, DatabaseError);
    :- Need(env.batch !in db.audit.batches && env.batch !in db.audit.steps, DatabaseError);
    Ok(())
  }

  ghost function RunAll(db: Database, batch: Batch, env: BatchEnv): RunResult
    requires |env.steps| == |batch.operations|
  {
    Run(db.tables, batch.operations, env.steps, env.batch, |batch.operations|)
  }

  /** execute_batch. */
  ghost function Execute(db: Database, batch: Batch, env: BatchEnv): Executed
    requires |env.steps| == |batch.operations|
  {
    match Admit(db.audit, batch)
    case Refuse(e) => Executed(db, Rejected(e))
    case Replay(id) =>
      var operations := CompleteOperation(db.audit.operations, batch.key, id);
      Executed(db.(audit := db.audit.(operations := operations)),
               Replayed(id, ReplayedSteps(RowsOf(db.audit.steps, id))))
    case Start =>
      match Prepare(db, batch, env)
      case Err(e) => Executed(db, Rejected(e))
      case Ok(_) => Attempt(db, batch, env)
  }

  ghost function Attempt(db: Database, batch: Batch, env: BatchEnv): Executed
    requires |env.steps| == |batch.operations|
  {
    var request := RequestOf(batch, env);
    match RunAll(db, batch, env)
    case Stopped(k, e) =>
      Executed(Database(db.tables, AttemptAudit(db.audit, batch, request, env.batch, RunFailed, Some(e), None,
                                                FailedSteps(batch.operations, k, e))),
               Failed(env.batch, e))
    case Finished(tables, outputs) =>
      if !CommitOk(tables) then Executed(db, CommitRefused) else
        var a := AttemptAudit(db.audit, batch, request, env.batch, RunCompleted, None, Some(env.batch),
                              CompletedSteps(batch.operations, outputs));
        Executed(Database(tables, a.(operations := CompleteOperation(a.operations, batch.key, env.batch))),
                 Committed(env.batch, ResultsOf(batch.operations, outputs)))
  }
}
