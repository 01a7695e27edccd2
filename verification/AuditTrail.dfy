/** What the idempotency, attempt, batch and step rows say between transactions, over every run of batches. */
module AuditTrail {
  import opened Prelude
  import opened Tables
  import opened Operations
  import opened Plans
  import opened Authorization
  import opened Executor
  import opened Runs

  // ---- a failed step

  /** A run that stopped at `k` had finished the steps before `k`, and step `k` returned the error. */
  lemma {:induction false} StoppedAt(b: Tables, ops: seq<Command>, envs: seq<StepEnv>, batch: Uuid, n: nat)
    requires n <= |ops| == |envs| && Run(b, ops, envs, batch, n).Stopped?
    ensures var k := Run(b, ops, envs, batch, n).index;
            && Run(b, ops, envs, batch, k).Finished?
            && Apply(Run(b, ops, envs, batch, k).tables, ops[k], envs[k], StepId(batch, k)) ==
               Err(Run(b, ops, envs, batch, n).error)
  {
    hide Apply;
    if Run(b, ops, envs, batch, n - 1).Stopped? { StoppedAt(b, ops, envs, batch, n - 1); }
  }

  /** A refusal leaves the whole database as it was, and so does a refusal at commit. */
  lemma RefusalLeavesNoTrace(db: Database, batch: Batch, env: BatchEnv)
    requires |env.steps| == |batch.operations|
    requires Execute(db, batch, env).outcome.Rejected? || Execute(db, batch, env).outcome.CommitRefused?
    ensures Execute(db, batch, env).db == db
  {
    hide Run, CommitOk, AttemptAudit, Prepare, Admit;
  }

  /**
   * When a step fails, every business table is as before the batch; the audit rows added are a failed attempt and a
   * failed batch whose steps up to the failing one are FAILED and whose later steps are PENDING; the key is
   * FAILED without a result. No other row changes.
   */
  lemma FailureIsAtomic(db: Database, batch: Batch, env: BatchEnv)
    requires |env.steps| == |batch.operations| && Execute(db, batch, env).outcome.Failed?
    ensures RunAll(db, batch, env).Stopped?
    ensures var r, k, e := Execute(db, batch, env), RunAll(db, batch, env).index, RunAll(db, batch, env).error;
            var a, a1, request := db.audit, r.db.audit, RequestOf(batch, env);
            && r.outcome == Failed(env.batch, e) && r.db.tables == db.tables
            && Run(db.tables, batch.operations, env.steps, env.batch, k).Finished?
            && Apply(Run(db.tables, batch.operations, env.steps, env.batch, k).tables, batch.operations[k],
                     env.steps[k],
                     StepId(env.batch, k)) == Err(e)
            && request !in a.attempts && env.batch !in a.batches && env.batch !in a.steps
            && a1.keys == a.keys[batch.key := KeyRow(FingerprintOf(batch), RunFailed, None, Some(e))]
            && (batch.key in a.keys ==> a.keys[batch.key].state.RunFailed?)
            && request in a1.attempts && a1.attempts[request].state.RunFailed?
            && a1.attempts[request].failure == Some(e)
            && a1.attempts - {request} == a.attempts
            && env.batch in a1.batches && a1.batches[env.batch].state.RunFailed?
            && a1.batches[env.batch].failure == Some(e)
            && a1.batches - {env.batch} == a.batches
            && env.batch in a1.steps && a1.steps - {env.batch} == a.steps
            && |a1.steps[env.batch]| == |batch.operations|
            && (forall i :: 0 <= i < |batch.operations| ==>
                  && a1.steps[env.batch][i].command == batch.operations[i]
                  && a1.steps[env.batch][i].state == (if i <= k then StepFailed else Pending)
                  && a1.steps[env.batch][i].failure == (if i <= k then Some(e) else None))
            && a1.operations == a.operations
  {
    hide Apply, CommitOk, Run, AuthorizePlan, ValidatePlan;
    StoppedAt(db.tables, batch.operations, env.steps, env.batch, |batch.operations|);
    var a, a1, request := db.audit, Execute(db, batch, env).db.audit, RequestOf(batch, env);
    assert a1.attempts - {request} == a.attempts;
    assert a1.batches - {env.batch} == a.batches;
    assert a1.steps - {env.batch} == a.steps;
  }

  // ---- coherence between transactions

  /** The plan behind a fingerprint was non-empty and, unless it had no intent, valid. */
  predicate PlanAdmitted(f: Fingerprint) {
    && f.Fingerprint? && f.operations != []
    && (f.intent != Unspecified ==>
        ValidatePlan(Batch(f.intent, "", None, f.externalId, f.actor, f.operations, None)).Ok?)
  }

  type Keys = map<string, KeyRow>
  type Attempts = map<Uuid, AttemptRow>
  type Batches = map<Uuid, BatchRow>
  type Steps = map<Uuid, seq<StepRow>>

  ghost predicate KeyOk(keys: Keys, batches: Batches, key: string)
    requires key in keys
  {
    var row := keys[key];
    && PlanAdmitted(row.fingerprint)
    && match row.state
       case RunInProgress => false
       case RunFailed =>
         && row.result == None && (exists b :: b in batches && batches[b].key == key)
         && forall b :: b in batches && batches[b].key == key ==> batches[b].state.RunFailed?
       case RunCompleted =>
         && row.result.Some? && row.result.value in batches && batches[row.result.value].key == key
         && forall b :: b in batches && batches[b].key == key ==>
              (batches[b].state.RunCompleted? <==> b == row.result.value)
  }

  ghost predicate KeysOk(keys: Keys, batches: Batches) {
    && (forall k :: k in keys ==> KeyOk(keys, batches, k))
    && (forall b :: b in batches ==> batches[b].key in keys)
  }

  /** The steps an attempt leaves: all completed, or failed up to some step and pending after it. */
  ghost predicate StepsOk(state: RunState, steps: seq<StepRow>) {
    match state
    case RunInProgress => false
    case RunCompleted => forall i :: 0 <= i < |steps| ==> steps[i].state.StepCompleted?
    case RunFailed =>
      exists k :: FailedUpTo(steps, k)
  }

  predicate FailedUpTo(steps: seq<StepRow>, k: int) {
    0 <= k < |steps| && forall i :: 0 <= i < |steps| ==> steps[i].state == if i <= k then StepFailed else Pending
  }

  /**
   * A batch row agrees with its attempt row and with its steps; no two batches share an attempt, and no attempt lacks a
   * batch.
   */
  ghost predicate BatchesOk(attempts: Attempts, batches: Batches, steps: Steps) {
    && steps.Keys == batches.Keys
    && (forall b :: b in batches ==>
          && StepsOk(batches[b].state, steps[b])
          && batches[b].request in attempts
          && attempts[batches[b].request].key == batches[b].key
          && attempts[batches[b].request].state == batches[b].state)
    && (forall b, c :: b in batches && c in batches && batches[b].request == batches[c].request ==> b == c)
    && (forall r :: r in attempts ==> HasBatch(batches, r))
  }

  ghost predicate HasBatch(batches: Batches, r: Uuid) {
    exists b :: b in batches && batches[b].request == r
  }

  /** The attempts of a key carry the numbers 1..n, each once. */
  ghost predicate NumbersOk(attempts: Attempts, key: string, n: nat) {
    && (forall r :: r in attempts && attempts[r].key == key ==> 1 <= attempts[r].number <= n)
    && (forall r, s :: r in attempts && s in attempts && attempts[r].key == key == attempts[s].key ==>
          attempts[r].number == attempts[s].number ==> r == s)
    && (forall i :: 1 <= i <= n ==> HasAttempt(attempts, key, i))
  }

  ghost predicate HasAttempt(attempts: Attempts, key: string, i: int) {
    exists r :: r in attempts && attempts[r].key == key && attempts[r].number == i
  }

  ghost predicate Numbered(attempts: Attempts, key: string) {
    exists n: nat :: NumbersOk(attempts, key, n)
  }

  ghost predicate AuditOk(a: Audit) {
    && KeysOk(a.keys, a.batches)
    && BatchesOk(a.attempts, a.batches, a.steps)
    && (forall k :: Numbered(a.attempts, k))
  }

  lemma LastOfNumbers(attempts: Attempts, key: string, n: nat)
    requires NumbersOk(attempts, key, n)
    ensures LastNumber(attempts, key) == n
  {
    assert IsLastNumber(attempts, key, n) by { if n > 0 { assert HasAttempt(attempts, key, n); } }
    assert IsLastNumber(attempts, key, LastNumber(attempts, key));
  }

  lemma AttemptKept(attempts: Attempts, request: Uuid, row: AttemptRow, key: string, i: int)
    requires request !in attempts && HasAttempt(attempts, key, i)
    ensures HasAttempt(attempts[request := row], key, i)
  {
    var r :| r in attempts && attempts[r].key == key && attempts[r].number == i;
    assert attempts[request := row][r] == attempts[r];
  }

  lemma AttemptNumbers(attempts: Attempts, request: Uuid, row: AttemptRow, k: string)
    requires request !in attempts && row.number == LastNumber(attempts, row.key) + 1 && Numbered(attempts, k)
    ensures Numbered(attempts[request := row], k)
  {
    var n: nat :| NumbersOk(attempts, k, n);
    if k == row.key { LastOfNumbers(attempts, k, n); }
    hide HasAttempt, LastNumber;
    var more := attempts[request := row];
    forall i | 1 <= i <= n
      ensures HasAttempt(more, k, i)
    {
      AttemptKept(attempts, request, row, k, i);
    }
    if k == row.key {
      NewAttempt(more, request);
      assert NumbersOk(more, k, n + 1);
    } else {
      assert NumbersOk(more, k, n);
    }
  }

  lemma NewAttempt(attempts: Attempts, r: Uuid)
    requires r in attempts
    ensures HasAttempt(attempts, attempts[r].key, attempts[r].number)
  {
  }

  lemma AttemptBatches(attempts: Attempts, batches: Batches, steps: Steps, request: Uuid, row: AttemptRow, id: Uuid,
                       batch: BatchRow, rows: seq<StepRow>)
    requires BatchesOk(attempts, batches, steps) && request !in attempts && id !in batches
    requires batch.request == request && row.key == batch.key && row.state == batch.state && StepsOk(batch.state, rows)
    ensures BatchesOk(attempts[request := row], batches[id := batch], steps[id := rows])
  {
    hide StepsOk;
    var attempts1, batches1 := attempts[request := row], batches[id := batch];
    forall r | r in attempts1
      ensures HasBatch(batches1, r)
    {
      if r == request {
        assert batches1[id].request == r;
      } else {
        assert HasBatch(batches, r);
        var b :| b in batches && batches[b].request == r;
        assert batches1[b].request == r;
      }
    }
  }

  lemma AttemptKeys(keys: Keys, batches: Batches, key: string, row: KeyRow, id: Uuid, batch: BatchRow)
    requires KeysOk(keys, batches) && id !in batches && batch.key == key && batch.state == row.state
    requires key in keys ==> keys[key].state.RunFailed?
    requires PlanAdmitted(row.fingerprint) && !row.state.RunInProgress?
    requires row.result == if row.state.RunCompleted? then Some(id) else None
    ensures KeysOk(keys[key := row], batches[id := batch])
  {
    hide PlanAdmitted;
    var keys1, batches1 := keys[key := row], batches[id := batch];
    forall k | k in keys1
      ensures KeyOk(keys1, batches1, k)
    {
      assert batches1[id].key == key;
      if k in keys {
        assert KeyOk(keys, batches, k);
        if keys[k].state.RunFailed? {
          var b :| b in batches && batches[b].key == k;
          assert b in batches1 && batches1[b].key == k;
        }
      }
    }
  }

  lemma AttemptKeepsAudit(a: Audit, batch: Batch, request: Uuid, id: Uuid, state: RunState, failure: Option<Error>,
                          steps: seq<StepRow>)
    requires AuditOk(a) && request !in a.attempts && id !in a.batches && id !in a.steps
    requires batch.key in a.keys ==> a.keys[batch.key].state.RunFailed?
    requires PlanAdmitted(FingerprintOf(batch)) && StepsOk(state, steps)
    ensures var result := if state.RunCompleted? then Some(id) else None;
            AuditOk(AttemptAudit(a, batch, request, id, state, failure, result, steps))
  {
    hide PlanAdmitted, LastNumber, Numbered, StepsOk, KeysOk, BatchesOk;
    var a1 := AttemptAudit(a, batch, request, id, state, failure, if state.RunCompleted? then Some(id) else None,
                           steps);
    assert !state.RunInProgress? by { EndedRun(state, steps); }
    AttemptKeys(a.keys, a.batches, batch.key, a1.keys[batch.key], id, a1.batches[id]);
    AttemptBatches(a.attempts, a.batches, a.steps, request, a1.attempts[request], id, a1.batches[id], steps);
    forall k ensures Numbered(a1.attempts, k) { AttemptNumbers(a.attempts, request, a1.attempts[request], k); }
  }

  lemma EndedRun(state: RunState, steps: seq<StepRow>)
    requires StepsOk(state, steps)
    ensures !state.RunInProgress?
  {
  }

  lemma AdmittedPlan(a: Audit, batch: Batch)
    requires Admit(a, batch).Start?
    ensures PlanAdmitted(FingerprintOf(batch))
    ensures batch.key in a.keys ==> a.keys[batch.key].state.RunFailed?
  {
  }

  lemma ExecuteKeepsAudit(db: Database, batch: Batch, env: BatchEnv)
    requires |env.steps| == |batch.operations| && AuditOk(db.audit)
    ensures AuditOk(Execute(db, batch, env).db.audit)
  {
    hide Run, CommitOk, AuthorizePlan, ValidatePlan, KeysOk, BatchesOk, Numbered, PlanAdmitted, AttemptAudit, StepsOk;
    if Admit(db.audit, batch).Start? && Prepare(db, batch, env).Ok? {
      AdmittedPlan(db.audit, batch);
      match RunAll(db, batch, env)
      case Stopped(k, e) =>
        var steps := FailedSteps(batch.operations, k, e);
        FailedStepsOk(batch.operations, k, e);
        AttemptKeepsAudit(db.audit, batch, RequestOf(batch, env), env.batch, RunFailed, Some(e), steps);
      case Finished(tables, outputs) =>
        var steps := CompletedSteps(batch.operations, outputs);
        CompletedStepsOk(batch.operations, outputs);
        AttemptKeepsAudit(db.audit, batch, RequestOf(batch, env), env.batch, RunCompleted, None, steps);
    }
  }

  lemma FailedStepsOk(ops: seq<Command>, k: nat, e: Error)
    requires k < |ops|
    ensures StepsOk(RunFailed, FailedSteps(ops, k, e))
  {
    assert FailedUpTo(FailedSteps(ops, k, e), k);
  }

  lemma CompletedStepsOk(ops: seq<Command>, outputs: seq<Output>)
    requires |ops| == |outputs|
    ensures StepsOk(RunCompleted, CompletedSteps(ops, outputs))
  {
  }

  /**
   * Between transactions, in every run: nothing is IN_PROGRESS or RUNNING; the attempts of a key are numbered 1..n
   * and each has its one batch; a key is COMPLETED exactly when one of its batches is, and that batch is its result.
   */
  lemma {:induction false} RunsKeepAudit(db: Database, calls: seq<Call>)
    requires AuditOk(db.audit)
    ensures AuditOk(After(db, calls).audit)
    decreases |calls|
  {
    hide Execute, AuditOk;
    if calls != [] {
      var last := calls[|calls| - 1];
      RunsKeepAudit(db, calls[..|calls| - 1]);
      ExecuteKeepsAudit(After(db, calls[..|calls| - 1]), last.batch, last.env);
    }
  }

  // ---- replay

  /** A completed key, its result batch and that batch's steps are the same in both. */
  ghost predicate KeptCompleted(a: Audit, a1: Audit, key: string)
    requires key in a.keys && a.keys[key].result.Some?
  {
    var id := a.keys[key].result.value;
    && key in a1.keys && a1.keys[key] == a.keys[key]
    && RowsOf(a1.steps, id) == RowsOf(a.steps, id)
    && id in a.batches && id in a1.batches && a1.batches[id] == a.batches[id]
  }

  lemma CallKeepsCompleted(db: Database, batch: Batch, env: BatchEnv, key: string)
    requires |env.steps| == |batch.operations| && AuditOk(db.audit)
    requires key in db.audit.keys && db.audit.keys[key].state.RunCompleted?
    ensures db.audit.keys[key].result.Some? && KeptCompleted(db.audit, Execute(db, batch, env).db.audit, key)
  {
    hide Run, CommitOk, AuthorizePlan, ValidatePlan, PlanAdmitted, LastNumber, AuditOk, FailedSteps, CompletedSteps,
         ResultsOf;
    CompletedResult(db.audit, key);
    if Admit(db.audit, batch).Start? { AdmittedPlan(db.audit, batch); }
  }

  lemma CompletedResult(a: Audit, key: string)
    requires AuditOk(a) && key in a.keys && a.keys[key].state.RunCompleted?
    ensures a.keys[key].result.Some? && a.keys[key].result.value in a.batches
    ensures a.batches[a.keys[key].result.value].key == key
  {
    assert KeyOk(a.keys, a.batches, key);
  }

  lemma {:induction false} RunsKeepCompleted(db: Database, calls: seq<Call>, key: string)
    requires AuditOk(db.audit) && key in db.audit.keys && db.audit.keys[key].state.RunCompleted?
    ensures db.audit.keys[key].result.Some? && KeptCompleted(db.audit, After(db, calls).audit, key)
    decreases |calls|
  {
    hide Execute, AuditOk;
    CompletedResult(db.audit, key);
    if calls != [] {
      var last := calls[|calls| - 1];
      var before := After(db, calls[..|calls| - 1]);
      RunsKeepCompleted(db, calls[..|calls| - 1], key);
      RunsKeepAudit(db, calls[..|calls| - 1]);
      CallKeepsCompleted(before, last.batch, last.env, key);
    }
  }

  /** The key a committed call leaves behind. */
  lemma CommittedRows(db: Database, batch: Batch, env: BatchEnv)
    requires |env.steps| == |batch.operations| && Execute(db, batch, env).outcome.Committed?
    ensures var r := Execute(db, batch, env);
            && batch.key in r.db.audit.keys
            && r.db.audit.keys[batch.key] == KeyRow(FingerprintOf(batch), RunCompleted, Some(r.outcome.batch), None)
            && ReplayedSteps(RowsOf(r.db.audit.steps, r.outcome.batch)) == r.outcome.steps
            && PlanAdmitted(FingerprintOf(batch))
  {
    hide Run, CommitOk, AuthorizePlan, ValidatePlan, PlanAdmitted, LastNumber;
    AdmittedPlan(db.audit, batch);
    var r := Execute(db, batch, env);
    assert ReplayedSteps(RowsOf(r.db.audit.steps, r.outcome.batch)) == r.outcome.steps;
  }

  /** The identifiers a committed call uses up: its key, its request identifier and its batch identifier. */
  lemma CommittedUses(db: Database, batch: Batch, env: BatchEnv)
    requires |env.steps| == |batch.operations| && Execute(db, batch, env).outcome.Committed?
    ensures var a, a1 := db.audit, Execute(db, batch, env).db.audit;
            && a1.keys.Keys == a.keys.Keys + {batch.key}
            && a1.attempts.Keys == a.attempts.Keys + {RequestOf(batch, env)}
            && a1.batches.Keys == a.batches.Keys + {env.batch} && a1.steps.Keys == a.steps.Keys + {env.batch}
  {
    hide Run, CommitOk, AuthorizePlan, ValidatePlan, LastNumber, CompletedSteps, ResultsOf, FailedSteps;
  }

  /** The plan of a fingerprint is admitted under any key that carries the same fingerprint. */
  lemma SamePlanAdmitted(batch: Batch, other: Batch)
    requires FingerprintOf(batch) == FingerprintOf(other) && PlanAdmitted(FingerprintOf(batch))
    ensures other.operations != [] && (other.intent != Unspecified ==> ValidatePlan(other).Ok?)
  {
  }

  /**
   * Once a call has committed, every later call with the same key and fingerprint, after any run of other calls,
   * returns the same batch identifier and the same step results and changes no business row. A call with the
   * key and another fingerprint is refused.
   */
  lemma ReplayFidelity(db: Database, batch: Batch, env: BatchEnv, calls: seq<Call>, again: Batch, env2: BatchEnv)
    requires |env.steps| == |batch.operations| && |env2.steps| == |again.operations|
    requires AuditOk(db.audit) && Execute(db, batch, env).outcome.Committed? && again.key == batch.key
    ensures var first, later := Execute(db, batch, env), After(Execute(db, batch, env).db, calls);
            var second := Execute(later, again, env2);
            && second.db.tables == later.tables
            && second.db.audit.(operations := later.audit.operations) == later.audit
            && (FingerprintOf(again) == FingerprintOf(batch) && AssertionHolds(again) ==>
                  second.outcome == Replayed(first.outcome.batch, first.outcome.steps))
            && (FingerprintOf(again) != FingerprintOf(batch) || !AssertionHolds(again) ==> second.outcome.Rejected?)
  {
    hide Run, CommitOk, AuthorizePlan, ValidatePlan, PlanAdmitted, LastNumber, AuditOk, Attempt, Prepare;
    CommittedRows(db, batch, env);
    ExecuteKeepsAudit(db, batch, env);
    RunsKeepCompleted(Execute(db, batch, env).db, calls, batch.key);
    if FingerprintOf(again) == FingerprintOf(batch) { SamePlanAdmitted(batch, again); }
  }
}
