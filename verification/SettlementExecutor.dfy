/**
 * execute_batch as it runs: audit rows are inserted, steps run one by one under a savepoint,
 * and the transaction is committed or abandoned. Proved against `Executor.Execute`.
 */
module SettlementExecutor {
  import opened Prelude
  import opened MapSums
  import opened Tables
  import opened Operations
  import opened Plans
  import opened Authorization
  import opened Executor
  import opened SettlementStore

  lemma LastNumberIs(attempts: map<Uuid, AttemptRow>, key: string, n: int)
    requires IsLastNumber(attempts, key, n)
    ensures LastNumber(attempts, key) == n
  {
  }

  class BatchExecutor {
    const store: Store
    var keys: map<string, KeyRow>
    var attempts: map<Uuid, AttemptRow>
    var batches: map<Uuid, BatchRow>
    var steps: map<Uuid, seq<StepRow>>
    var operations: map<Uuid, OperationRow>

    constructor (store: Store, a: Audit)
      ensures this.store == store && Db() == Database(store.Contents(), a)
    {
      this.store := store;
      keys, attempts, batches, steps, operations := a.keys, a.attempts, a.batches, a.steps, a.operations;
    }

    function AuditRows(): Audit
      reads this
    {
      Audit(keys, attempts, batches, steps, operations)
    }

    function Db(): Database
      reads this, store
    {
      Database(store.Contents(), AuditRows())
    }

    /** The transaction is dropped without COMMIT. */
    method Abandon(start: Database)
      modifies this, store
      ensures Db() == start
    {
      store.Restore(start.tables);
      keys, attempts, batches := start.audit.keys, start.audit.attempts, start.audit.batches;
      steps, operations := start.audit.steps, start.audit.operations;
    }

    /** Evaluates the deferred constraint triggers. */
    method CheckConstraints() returns (ok: bool)
      ensures ok == CommitOk(store.Contents())
    {
      var b := store.Contents();
      var rest := b.trades.Keys;
      while rest != {}
        invariant rest <= b.trades.Keys
        invariant forall t :: t in b.trades && t !in rest ==> TradeBalanced(b, t)
        decreases rest
      {
        var t :| t in rest;
        var items := Total(b.stackEscrows, ActiveItems(t));
        var isk := Total(b.walletEscrows, ActiveIsk(t));
        if b.trades[t].remaining != items || (!b.trades[t].state.Open? && (items != 0 || isk != 0)) {
          assert !TradeBalanced(b, t);
          return false;
        }
        rest := rest - {t};
      }
      ok := forall s | s in b.stacks :: Projects(b.stacks[s], RowsOf(b.stackLedger, s));
    }

    /** validate_plan_semantics, with the index-advancing validators. */
    method ValidateBatch(batch: Batch) returns (r: Result<()>)
      ensures r == ValidatePlan(batch)
    {
      hide ValidateIssue, CheckAccept, CheckCancel;
      if batch.actor.None? { return Err(InvalidArgument); }
      match batch.intent
      case Issue => r := ValidateIssue(batch.actor.value, batch.operations);
      case Accept => r := ValidateAccept(batch.actor.value, batch.operations);
      case Cancel => r := ValidateCancel(batch.operations);
      case Unspecified => r := Err(InvalidArgument);
    }

    /** Plan validation, then the idempotency record of the key. */
    method AdmitBatch(batch: Batch) returns (a: Admission)
      ensures a == Admit(AuditRows(), batch)
    {
      hide ValidatePlan;
      if batch.intent != Unspecified {
        var valid := ValidateBatch(batch);
        if valid.Err? { return Refuse(valid.error); }
      }
      if batch.operations == [] { return Refuse(InvalidArgument); }
      if batch.key in keys {
        var existing := keys[batch.key];
        if existing.fingerprint != FingerprintOf(batch) { return Refuse(Conflict); }
        if !AssertionHolds(batch) { return Refuse(InvalidArgument); }
        match existing.state
        case RunCompleted =>
          if existing.result.None? { return Refuse(FailedPrecondition); }
          return Replay(existing.result.value);
        case RunInProgress => return Refuse(Conflict);
        case RunFailed => return Start;
      }
      if !AssertionHolds(batch) { return Refuse(InvalidArgument); }
      return Start;
    }

    /** authorize_plan, with the counting loop for CANCEL; then the primary keys of the attempt and batch rows. */
    method PrepareAttempt(batch: Batch, env: BatchEnv) returns (r: Result<()>)
      requires batch.intent != Unspecified ==> ValidatePlan(batch).Ok?
      ensures r == Prepare(Db(), batch, env)
    {
      hide AuthorizeIssue, AuthorizeAccept, AuthorizeCancel;
      var b := store.Contents();
      match batch.intent {
        case Issue => var _ :- AuthorizeIssue(b, batch.actor.value, batch.operations);
        case Accept => var _ :- AuthorizeAccept(b, batch.actor.value, batch.operations);
        case Cancel => var _ :- RunAuthorizeCancel(b, batch.actor.value, batch.operations);
        case Unspecified =>
      }
      :- Need(RequestOf(batch, env) !in attempts, DatabaseError);
      :- Need(env.batch !in batches && env.batch !in steps, DatabaseError);
      return Ok(());
    }

    method InsertAuditRows(batch: Batch, request: Uuid, id: Uuid)
      requires request !in attempts && id !in batches && id !in steps
      modifies this
      ensures operations == old(operations)
      ensures AuditRows() == AttemptAudit(old(AuditRows()), batch, request, id, RunInProgress, None, None,
                                          PendingSteps(batch.operations))
    {
      keys := keys[batch.key := KeyRow(FingerprintOf(batch), RunInProgress, None, None)];
      var last := FindLastNumber(attempts, batch.key);
      LastNumberIs(attempts, batch.key, last);
      attempts := attempts[request := AttemptRow(batch.key, last + 1, RunInProgress, None)];
      batches := batches[id := BatchRow(request, batch.key, batch.actor, batch.externalId, RunInProgress, None)];
      var rows: seq<StepRow> := [];
      for i := 0 to |batch.operations|
        invariant rows == PendingSteps(batch.operations)[..i]
      {
        rows := rows + [StepRow(KindOf(batch.operations[i]), batch.operations[i], Pending, [], None)];
      }
      assert rows == PendingSteps(batch.operations);
      steps := steps[id := rows];
    }

    method MarkStep(id: Uuid, i: nat, state: StepState, output: Output, failure: Option<Error>)
      requires id in steps && i < |steps[id]|
      modifies this`steps
      ensures steps == old(steps)[id := old(steps[id])[i := old(steps[id][i]).(state := state, output := output,
                                                                               failure := failure)]]
    {
      steps := steps[id := steps[id][i := steps[id][i].(state := state, output := output, failure := failure)]];
    }

    method MarkAttempted(ops: seq<Command>, id: Uuid, attempted: nat, e: Error)
      requires 0 < attempted <= |ops|
      requires id in steps && steps[id] == PendingSteps(ops)
      modifies this`steps
      ensures steps == old(steps)[id := FailedSteps(ops, attempted - 1, e)]
    {
      for i := 0 to |ops|
        invariant id in steps && |steps[id]| == |ops| && steps == old(steps)[id := steps[id]]
        invariant forall j :: 0 <= j < i ==> steps[id][j] == FailedSteps(ops, attempted - 1, e)[j]
        invariant forall j :: i <= j < |ops| ==> steps[id][j] == PendingSteps(ops)[j]
      {
        if i < attempted {
          MarkStep(id, i, StepFailed, [], Some(e));
        }
      }
      assert steps[id] == FailedSteps(ops, attempted - 1, e);
    }

    /** fail_execution: the attempted steps, the batch, the attempt and the key are marked FAILED. */
    method FailExecution(batch: Batch, request: Uuid, id: Uuid, attempted: nat, e: Error, ghost base: Audit)
      requires 0 < attempted <= |batch.operations|
      requires AuditRows() == AttemptAudit(base, batch, request, id, RunInProgress, None, None,
                                           PendingSteps(batch.operations))
      modifies this
      ensures AuditRows() == AttemptAudit(base, batch, request, id, RunFailed, Some(e), None,
                                          FailedSteps(batch.operations, attempted - 1, e))
    {
      hide AttemptAudit, PendingSteps, FailedSteps;
      InProgressRows(base, batch, request, id, PendingSteps(batch.operations));
      MarkAttempted(batch.operations, id, attempted, e);
      FailedRows(base, batch, request, id, e, PendingSteps(batch.operations),
                 FailedSteps(batch.operations, attempted - 1, e));
      batches := batches[id := batches[id].(state := RunFailed, failure := Some(e))];
      attempts := attempts[request := attempts[request].(state := RunFailed, failure := Some(e))];
      keys := keys[batch.key := keys[batch.key].(state := RunFailed, failure := Some(e), result := None)];
    }

    method CompleteExecution(batch: Batch, request: Uuid, id: Uuid, ghost base: Audit, ghost rows: seq<StepRow>)
      requires AuditRows() == AttemptAudit(base, batch, request, id, RunInProgress, None, None, rows)
      modifies this
      ensures var a := AttemptAudit(base, batch, request, id, RunCompleted, None, Some(id), rows);
              AuditRows() == a.(operations := CompleteOperation(a.operations, batch.key, id))
    {
      hide LastNumber, FingerprintOf, CompleteOperation;
      batches := batches[id := batches[id].(state := RunCompleted)];
      attempts := attempts[request := attempts[request].(state := RunCompleted)];
      keys := keys[batch.key := keys[batch.key].(state := RunCompleted, result := Some(id))];
      operations := CompleteOperation(operations, batch.key, id);
    }

    /** The savepoint loop: every step succeeds, or the tables and the step rows are as they were at the savepoint. */
    method RunSteps(batch: Batch, id: Uuid, env: BatchEnv) returns (stopped: Option<(nat, Error)>,
                                                                    results: seq<StepResult>)
      requires |env.steps| == |batch.operations| && id == env.batch
      requires id in steps && steps[id] == PendingSteps(batch.operations)
      modifies this`steps, store
      ensures match RunAll(old(Db()), batch, env)
              case Stopped(k, e) =>
                stopped == Some((k, e)) && store.Contents() == old(store.Contents()) && steps == old(steps)
              case Finished(tables, outputs) =>
                && stopped == None && store.Contents() == tables
                && results == ResultsOf(batch.operations, outputs)
                && steps == old(steps)[id := CompletedSteps(batch.operations, outputs)]
    {
      hide Apply, DoneSteps, ResultsOf, PendingSteps, CompletedSteps;
      var ops := batch.operations;
      NoneDone(ops);
      var savepoint, savedSteps := store.Contents(), steps;
      ghost var outputs: seq<Output> := [];
      results := [];
      for i := 0 to |ops|
        invariant Run(savepoint, ops, env.steps, env.batch, i) == Finished(store.Contents(), outputs)
        invariant |outputs| == i && results == ResultsOf(ops[..i], outputs)
        invariant steps == savedSteps[id := DoneSteps(ops, outputs)]
      {
        ghost var rows := DoneSteps(ops, outputs);
        MarkStep(id, i, Running, [], None);
        var r := store.ExecuteCommand(ops[i], env.steps[i], StepId(id, i));
        if r.Err? {
          RunStuck(savepoint, ops, env.steps, env.batch, i + 1, |ops|);
          store.Restore(savepoint);
          steps := savedSteps;
          return Some((i, r.error)), results;
        }
        MarkStep(id, i, StepCompleted, r.value, None);
        assert steps[id] == rows[i := rows[i].(state := StepCompleted, output := r.value, failure := None)];
        DoneOneMore(ops, outputs, r.value);
        results := results + [StepResult(i, KindOf(ops[i]), r.value)];
        outputs := outputs + [r.value];
      }
      stopped := None;
      assert ops[..|ops|] == ops;
      AllDone(ops, outputs);
    }

    /** Everything after admission: authorization, audit rows, steps, and the end of the transaction. */
    method RunAttempt(batch: Batch, env: BatchEnv) returns (outcome: Outcome)
      requires |env.steps| == |batch.operations| > 0
      requires batch.intent != Unspecified ==> ValidatePlan(batch).Ok?
      modifies this, store
      ensures Executed(Db(), outcome) == match Prepare(old(Db()), batch, env)
                                         case Err(e) => Executed(old(Db()), Rejected(e))
                                         case Ok(_) => Attempt(old(Db()), batch, env)
    {
      hide Run, AuthorizePlan, ValidatePlan, CommitOk, CompleteOperation, PendingSteps, FailedSteps, CompletedSteps,
           ResultsOf,
        FingerprintOf, LastNumber;
      var start := Db();
      var request := RequestOf(batch, env);
      var prepared := PrepareAttempt(batch, env);
      if prepared.Err? {
        Abandon(start);
        return Rejected(prepared.error);
      }
      InsertAuditRows(batch, request, env.batch);
      assert store.Contents() == start.tables;
      var stopped, results := RunSteps(batch, env.batch, env);
      if stopped.Some? {
        FailExecution(batch, request, env.batch, stopped.value.0 + 1, stopped.value.1, start.audit);
        return Failed(env.batch, stopped.value.1);
      }
      ghost var rows := steps[env.batch];
      assert AuditRows() == AttemptAudit(start.audit, batch, request, env.batch, RunInProgress, None, None, rows);
      CompleteExecution(batch, request, env.batch, start.audit, rows);
      var ok := CheckConstraints();
      if !ok {
        Abandon(start);
        return CommitRefused;
      }
      return Committed(env.batch, results);
    }

    method ExecuteBatch(batch: Batch, env: BatchEnv) returns (outcome: Outcome)
      requires |env.steps| == |batch.operations|
      modifies this, store
      ensures Executed(Db(), outcome) == Execute(old(Db()), batch, env)
    {
      hide Admit, Attempt, Prepare;
      var admission := AdmitBatch(batch);
      AdmittedStart(AuditRows(), batch);
      match admission
      case Refuse(e) => outcome := Rejected(e);
      case Replay(id) =>
        operations := CompleteOperation(operations, batch.key, id);
        outcome := Replayed(id, ReplayedSteps(RowsOf(steps, id)));
      case Start => outcome := RunAttempt(batch, env);
    }
  }
}
