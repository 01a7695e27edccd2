/**
 * The at-least-once delivery protocol around the executor: publishers queue an operation and publish its
 * work; workers receive any published work any number of times, mark, execute, mark and publish a result.
 * Every remote call is one step, several publishers and workers run at once, and any of them may stop
 * between two steps.
 */
module Delivery {
  import opened Prelude
  import opened Tables
  import opened Plans
  import opened Authorization
  import opened Executor
  import opened AuditTrail
  import opened OperationLog
  import opened Lifecycle

  /** A message of the work topic, as the batch its conversion yields. */
  datatype Work = Work(operation: Uuid, batch: Batch)

  /** A message of the result topic. */
  datatype ResultMessage = ResultMessage(operation: Uuid, state: OperationState, batch: Option<Uuid>,
                                         failureCode: FailureCode)

  datatype Publisher = Resting | Sending(work: Work) | Unsent(operation: Uuid)

  datatype Worker =
    | Waiting
    | Marking(work: Work)                        // loaded, not terminal
    | Executing(work: Work)                      // marked PROCESSING
    | Succeeding(work: Work, batch: Uuid)        // executed or replayed
    | Failing(work: Work, error: Error)          // failed permanently
    | Announcing(work: Work, row: OperationRow)  // terminal row in hand, result not published
    | Announced(work: Work, row: OperationRow)   // result published

  datatype System = System(db: Database, work: set<Work>, results: set<ResultMessage>, publishers: map<nat, Publisher>,
                           workers: map<nat, Worker>)

  datatype Sent = Acknowledged | DeliveredUnacknowledged | Lost

  datatype Step =
    | Queue(p: nat, batch: Batch, fingerprint: string, newId: Uuid)
    | PublishWork(p: nat, sent: Sent)
    | MarkUnsent(p: nat)
    | StopPublisher(p: nat)
    | Deliver(w: nat, work: Work)
    | MarkProcessing(w: nat)
    | ExecuteWork(w: nat, env: BatchEnv)
    | MarkSucceeded(w: nat)
    | MarkFailed(w: nat)
    | PublishResult(w: nat, sent: Sent)
    | MarkPublished(w: nat)
    | StopWorker(w: nat)

  function PublisherAt(s: System, p: nat): Publisher { if p in s.publishers then s.publishers[p] else Resting }
  function WorkerAt(s: System, w: nat): Worker { if w in s.workers then s.workers[w] else Waiting }

  function SetPublisher(s: System, p: nat, state: Publisher): System { s.(publishers := s.publishers[p := state]) }
  function SetWorker(s: System, w: nat, state: Worker): System { s.(workers := s.workers[w := state]) }
  function SetOperations(s: System, operations: OperationRows): System {
    s.(db := s.db.(audit := s.db.audit.(operations := operations)))
  }

  // ---- publishers

  /** What the publisher asks to queue for a batch. */
  function RequestFor(batch: Batch, fingerprint: string): QueueRequest
    requires batch.actor.Some?
  {
    QueueRequest(batch.key, fingerprint, batch.intent, batch.actor.value,
                 if batch.externalId.Some? then batch.externalId.value else "")
  }

  ghost function DoQueue(s: System, p: nat, batch: Batch, fingerprint: string, newId: Uuid): System {
    if !PublisherAt(s, p).Resting? || batch.actor.None? then s else
    match QueueOperation(s.db.audit.operations, RequestFor(batch, fingerprint), newId)
    case Err(_) => s
    case Ok(l) =>
      var work := Work(l.id, batch.(requestId := Some(l.id), assertion := None));
      SetPublisher(SetOperations(s, l.operations), p, Sending(work))
  }

  function DoPublishWork(s: System, p: nat, sent: Sent): System {
    if !PublisherAt(s, p).Sending? then s else
    var work := PublisherAt(s, p).work;
    var topic := if sent.Lost? then s.work else s.work + {work};
    SetPublisher(s.(work := topic), p, if sent.Acknowledged? then Resting else Unsent(work.operation))
  }

  function DoMarkUnsent(s: System, p: nat): System {
    if !PublisherAt(s, p).Unsent? then s else
    match UpdateOperation(s.db.audit.operations,
                          UpdateRequest(PublisherAt(s, p).operation, OpFailed, None, PublicationFailed, false))
    case Err(_) => SetPublisher(s, p, Resting)
    case Ok(o) => SetPublisher(SetOperations(s, o), p, Resting)
  }

  // ---- workers

  function DoDeliver(s: System, w: nat, work: Work): System {
    if !WorkerAt(s, w).Waiting? || work !in s.work || work.operation !in s.db.audit.operations then s else
    var row := s.db.audit.operations[work.operation];
    if !IsTerminal(row.state) then SetWorker(s, w, Marking(work))
    else if row.published then s
    else SetWorker(s, w, Announcing(work, row))
  }

  /** An update by worker `w`: on success it goes on with `next` of the updated row, on an error it gives up. */
  function DoUpdate(s: System, w: nat, u: UpdateRequest, next: OperationRow -> Worker): System {
    match UpdateOperation(s.db.audit.operations, u)
    case Err(_) => SetWorker(s, w, Waiting)
    case Ok(o) => SetWorker(SetOperations(s, o), w, next(o[u.operation]))
  }

  function DoMarkProcessing(s: System, w: nat): System {
    if !WorkerAt(s, w).Marking? then s else
    var work := WorkerAt(s, w).work;
    DoUpdate(s, w, UpdateRequest(work.operation, Processing, None, NoCode, false), _ => Executing(work))
  }

  /** The gRPC status of a settlement error. */
  function StatusOf(e: Error): Error {
    if e.InsufficientFunds? || e.InsufficientQuantity? then FailedPrecondition else e
  }

  predicate IsPermanent(e: Error) {
    var code := StatusOf(e);
    code.InvalidArgument? || code.PermissionDenied? || code.FailedPrecondition? || code.NotFound?
  }

  function AfterFailure(work: Work, e: Error): Worker {
    if IsPermanent(e) then Failing(work, e) else Waiting
  }

  ghost function DoExecute(s: System, w: nat, env: BatchEnv): System {
    if !WorkerAt(s, w).Executing? || |env.steps| != |WorkerAt(s, w).work.batch.operations| then s else
    var work := WorkerAt(s, w).work;
    var r := Execute(s.db, work.batch, env);
    SetWorker(s.(db := r.db), w,
      match r.outcome
      case Committed(id, _) => Succeeding(work, id)
      case Replayed(id, _) => Succeeding(work, id)
      case Failed(_, e) => AfterFailure(work, e)
      case Rejected(e) => AfterFailure(work, e)
      case CommitRefused => AfterFailure(work, DatabaseError))
  }

  function DoMarkSucceeded(s: System, w: nat): System {
    if !WorkerAt(s, w).Succeeding? then s else
    var work := WorkerAt(s, w).work;
    DoUpdate(s, w, UpdateRequest(work.operation, OpSucceeded, Some(WorkerAt(s, w).batch), NoCode, false),
             row => Announcing(work, row))
  }

  function DoMarkFailed(s: System, w: nat): System {
    if !WorkerAt(s, w).Failing? then s else
    var work := WorkerAt(s, w).work;
    DoUpdate(s, w, UpdateRequest(work.operation, OpFailed, None, StatusCode(StatusOf(WorkerAt(s, w).error)), false),
             row => Announcing(work, row))
  }

  function MessageFor(work: Work, row: OperationRow): ResultMessage {
    ResultMessage(work.operation, row.state, row.batch, row.failureCode)
  }

  function DoPublishResult(s: System, w: nat, sent: Sent): System {
    if !WorkerAt(s, w).Announcing? then s else
    var work, row := WorkerAt(s, w).work, WorkerAt(s, w).row;
    var topic := if sent.Lost? then s.results else s.results + {MessageFor(work, row)};
    SetWorker(s.(results := topic), w, if sent.Acknowledged? then Announced(work, row) else Waiting)
  }

  function DoMarkPublished(s: System, w: nat): System {
    if !WorkerAt(s, w).Announced? then s else
    var work, row := WorkerAt(s, w).work, WorkerAt(s, w).row;
    DoUpdate(s, w, UpdateRequest(work.operation, row.state, row.batch, row.failureCode, true), _ => Waiting)
  }

  ghost function Next(s: System, step: Step): System {
    match step
    case Queue(p, batch, fingerprint, newId) => DoQueue(s, p, batch, fingerprint, newId)
    case PublishWork(p, sent) => DoPublishWork(s, p, sent)
    case MarkUnsent(p) => DoMarkUnsent(s, p)
    case StopPublisher(p) => SetPublisher(s, p, Resting)
    case Deliver(w, work) => DoDeliver(s, w, work)
    case MarkProcessing(w) => DoMarkProcessing(s, w)
    case ExecuteWork(w, env) => DoExecute(s, w, env)
    case MarkSucceeded(w) => DoMarkSucceeded(s, w)
    case MarkFailed(w) => DoMarkFailed(s, w)
    case PublishResult(w, sent) => DoPublishResult(s, w, sent)
    case MarkPublished(w) => DoMarkPublished(s, w)
    case StopWorker(w) => SetWorker(s, w, Waiting)
  }

  ghost function Play(s: System, steps: seq<Step>): System {
    if steps == [] then s else Next(Play(s, steps[..|steps| - 1]), steps[|steps| - 1])
  }

  // ---- what every run keeps

  /** The batch recorded as the result of a completed key. */
  predicate IsResult(a: Audit, key: string, id: Uuid) {
    key in a.keys && a.keys[key].state.RunCompleted? && a.keys[key].result == Some(id)
  }

  /**
   * An operation carries a batch exactly when it SUCCEEDED, and that batch is the result of its key; exactly FAILED
   * carries a code.
   */
  predicate RowOk(a: Audit, row: OperationRow) {
    && (row.batch.Some? <==> row.state.OpSucceeded?)
    && (row.batch.Some? ==> IsResult(a, row.key, row.batch.value))
    && (row.failureCode != NoCode <==> row.state.OpFailed?)
  }

  ghost predicate LogOk(a: Audit) {
    && UniqueKeys(a.operations)
    && (forall o :: o in a.operations ==> RowOk(a, a.operations[o]))
    && (forall r :: r in a.attempts ==> HasKey(a.operations, r, a.attempts[r].key))
  }

  /** Work is for a logged operation, under that operation's key and with its identifier as request identifier. */
  predicate WorkOk(operations: OperationRows, work: Work) {
    && HasKey(operations, work.operation, work.batch.key)
    && work.batch.requestId == Some(work.operation) && work.batch.assertion == None && work.batch.intent != Unspecified
  }

  /** The log still has the terminal state and the batch of the row. */
  predicate RowKept(operations: OperationRows, o: Uuid, state: OperationState, batch: Option<Uuid>) {
    o in operations && IsTerminal(state) && operations[o].state == state && operations[o].batch == batch
  }

  predicate MessageOk(operations: OperationRows, m: ResultMessage) {
    RowKept(operations, m.operation, m.state, m.batch) && (m.failureCode != NoCode <==> m.state.OpFailed?)
  }

  predicate PublisherOk(s: System, p: Publisher) {
    match p
    case Resting => true
    case Sending(work) => WorkOk(s.db.audit.operations, work)
    case Unsent(o) => o in s.db.audit.operations
  }

  predicate WorkerOk(s: System, w: Worker) {
    (!w.Waiting? ==> WorkOk(s.db.audit.operations, w.work))
    && match w
       case Succeeding(work, id) => IsResult(s.db.audit, work.batch.key, id)
       case Announcing(work, row) => MessageOk(s.db.audit.operations, MessageFor(work, row))
       case Announced(work, row) =>
         MessageOk(s.db.audit.operations, MessageFor(work, row)) && MessageFor(work, row) in s.results
       case _ => true
  }

  ghost predicate HasResult(results: set<ResultMessage>, o: Uuid) {
    exists m :: m in results && m.operation == o
  }

  ghost predicate Coherent(s: System) {
    && AuditOk(s.db.audit) && LogOk(s.db.audit)
    && (forall work :: work in s.work ==> WorkOk(s.db.audit.operations, work))
    && (forall m :: m in s.results ==> MessageOk(s.db.audit.operations, m))
    && (forall o :: o in s.db.audit.operations && s.db.audit.operations[o].published ==> HasResult(s.results, o))
    && (forall p :: p in s.publishers ==> PublisherOk(s, s.publishers[p]))
    && (forall w :: w in s.workers ==> WorkerOk(s, s.workers[w]))
  }

  /**
   * Rows are not lost, keep their key and published flag, and keep state and batch once terminal; results of keys are
   * kept.
   */
  ghost predicate LogGrows(a: Audit, a1: Audit) {
    && (forall o :: o in a.operations ==> HasKey(a1.operations, o, a.operations[o].key))
    && (forall o :: o in a.operations && a.operations[o].published ==> o in a1.operations && a1.operations[o].published)
    && (forall o :: o in a.operations && IsTerminal(a.operations[o].state) ==>
          RowKept(a1.operations, o, a.operations[o].state, a.operations[o].batch))
    && (forall k, id :: IsResult(a, k, id) ==> IsResult(a1, k, id))
  }

  lemma NewRowKeepsLog(a: Audit, id: Uuid, row: OperationRow)
    requires LogOk(a) && id !in a.operations && row.state.Queued? && row.batch.None? && row.failureCode == NoCode
    requires !row.published
    requires forall o :: o in a.operations ==> a.operations[o].key != row.key
    ensures var a1 := a.(operations := a.operations[id := row]); LogOk(a1) && LogGrows(a, a1)
  {
    var a1 := a.(operations := a.operations[id := row]);
    forall o | o in a.operations
      ensures a1.operations[o] == a.operations[o] && RowOk(a1, a.operations[o])
    {
      assert RowOk(a, a.operations[o]);
    }
    forall r | r in a.attempts
      ensures HasKey(a1.operations, r, a.attempts[r].key)
    {
      assert HasKey(a.operations, r, a.attempts[r].key);
    }
  }

  lemma QueueKeepsLog(a: Audit, q: QueueRequest, newId: Uuid)
    requires LogOk(a) && QueueOperation(a.operations, q, newId).Ok?
    ensures var l := QueueOperation(a.operations, q, newId).value;
            var a1 := a.(operations := l.operations);
            && LogOk(a1) && LogGrows(a, a1) && HasKey(a1.operations, l.id, q.key) && q.intent != Unspecified
            && forall o :: o in a1.operations && a1.operations[o].published ==>
                 o in a.operations && a.operations[o].published
  {
    hide LogOk, LogGrows, Blank;
    var l := QueueOperation(a.operations, q, newId).value;
    if l.operations == a.operations {
      LogReflexive(a);
      assert a.(operations := l.operations) == a;
    } else {
      assert forall o :: o in a.operations ==> !HasKey(a.operations, o, q.key);
      NewRowKeepsLog(a, newId, l.operations[newId]);
    }
  }

  /** The updates publishers and workers make. */
  predicate FairUpdate(a: Audit, u: UpdateRequest)
    requires u.operation in a.operations
  {
    && (u.batch.Some? ==> u.state.OpSucceeded? && IsResult(a, a.operations[u.operation].key, u.batch.value))
    && (u.failureCode != NoCode ==> u.state.OpFailed?)
  }

  /** The row an update writes. */
  lemma UpdatedRow(a: Audit, u: UpdateRequest)
    requires u.operation in a.operations && RowOk(a, a.operations[u.operation])
    requires UpdateOperation(a.operations, u).Ok? && FairUpdate(a, u)
    ensures var before, after := a.operations[u.operation], UpdateOperation(a.operations, u).value;
            && u.operation in after && after == a.operations[u.operation := after[u.operation]]
            && var row := after[u.operation];
            && row.key == before.key && row.state == u.state && RowOk(a, row)
            && row.published == (before.published || u.published)
            && (IsTerminal(before.state) ==> row.state == before.state && row.batch == before.batch)
  {
  }

  lemma UpdateKeepsLog(a: Audit, u: UpdateRequest)
    requires LogOk(a) && UpdateOperation(a.operations, u).Ok? && FairUpdate(a, u)
    ensures var a1 := a.(operations := UpdateOperation(a.operations, u).value);
            && LogOk(a1) && LogGrows(a, a1)
            && u.operation in a1.operations && a1.operations[u.operation].state == u.state
            && (IsTerminal(u.state) ==>
                MessageOk(a1.operations, ResultMessage(u.operation, u.state, a1.operations[u.operation].batch,
                                                                               a1.operations[u.operation].failureCode)))
            && forall o :: o in a1.operations && a1.operations[o].published ==>
                 o in a.operations && ((o == u.operation && u.published) || a.operations[o].published)
  {
    hide UpdateOperation, FairUpdate;
    assert u.operation in a.operations by { UpdatesKnown(a.operations, u); }
    UpdatedRow(a, u);
    var a1 := a.(operations := UpdateOperation(a.operations, u).value);
    forall o | o in a1.operations
      ensures o in a.operations && a1.operations[o].key == a.operations[o].key && RowOk(a1, a1.operations[o])
      ensures IsTerminal(a.operations[o].state) ==>
                RowKept(a1.operations, o, a.operations[o].state, a.operations[o].batch)
    {
      assert RowOk(a, a.operations[o]);
    }
    forall r | r in a.attempts
      ensures HasKey(a1.operations, r, a.attempts[r].key)
    {
      assert HasKey(a.operations, r, a.attempts[r].key);
    }
  }

  lemma UpdatesKnown(operations: OperationRows, u: UpdateRequest)
    requires UpdateOperation(operations, u).Ok?
    ensures u.operation in operations
  {
  }

  predicate Succeeded(outcome: Outcome) { outcome.Committed? || outcome.Replayed? }

  /** The rows an execution writes outside the business tables, seen from the log. */
  lemma ExecutedRows(db: Database, batch: Batch, env: BatchEnv)
    requires |env.steps| == |batch.operations| && AuditOk(db.audit)
    ensures var r := Execute(db, batch, env);
            var a, a1 := db.audit, r.db.audit;
            && (if Succeeded(r.outcome) then
                  && a1.operations == CompleteOperation(a.operations, batch.key, r.outcome.batch)
                  && IsResult(a1, batch.key, r.outcome.batch)
                else a1.operations == a.operations)
            && (r.outcome.Committed? ==> forall id :: !IsResult(a, batch.key, id))
            && (r.outcome.Replayed? ==> IsResult(a, batch.key, r.outcome.batch))
            && (forall q :: q in a1.attempts ==>
                  (q in a.attempts && a1.attempts[q] == a.attempts[q])
                    || (q == RequestOf(batch, env) && a1.attempts[q].key == batch.key))
  {
    hide Run, CommitOk, AuthorizePlan, ValidatePlan, LastNumber, AuditOk, FailedSteps, CompletedSteps, ResultsOf,
         CompleteOperation;
    if Execute(db, batch, env).outcome.Committed? {
      CommittedRows(db, batch, env);
      AdmittedPlan(db.audit, batch);
    }
  }

  lemma ResultsKept(db: Database, batch: Batch, env: BatchEnv, k: string, id: Uuid)
    requires |env.steps| == |batch.operations| && AuditOk(db.audit) && IsResult(db.audit, k, id)
    ensures IsResult(Execute(db, batch, env).db.audit, k, id)
  {
    hide Execute, AuditOk;
    CallKeepsCompleted(db, batch, env, k);
  }

  lemma ExecuteKeepsLog(db: Database, work: Work, env: BatchEnv)
    requires |env.steps| == |work.batch.operations| && AuditOk(db.audit) && LogOk(db.audit)
    requires WorkOk(db.audit.operations, work)
    ensures var r := Execute(db, work.batch, env);
            && LogOk(r.db.audit) && LogGrows(db.audit, r.db.audit)
            && (Succeeded(r.outcome) ==> IsResult(r.db.audit, work.batch.key, r.outcome.batch))
            && forall o :: o in r.db.audit.operations && r.db.audit.operations[o].published ==>
                 o in db.audit.operations && db.audit.operations[o].published
  {
    hide Execute, AuditOk;
    ExecutedRows(db, work.batch, env);
    var r := Execute(db, work.batch, env);
    forall k, id | IsResult(db.audit, k, id)
      ensures IsResult(r.db.audit, k, id)
    {
      ResultsKept(db, work.batch, env, k, id);
    }
    CompletionKeepsLog(db.audit, r.db.audit, work, r.outcome);
  }

  lemma CompletionKeepsLog(a: Audit, a1: Audit, work: Work, outcome: Outcome)
    requires LogOk(a) && WorkOk(a.operations, work) && forall k, id :: IsResult(a, k, id) ==> IsResult(a1, k, id)
    requires if Succeeded(outcome) then
               && a1.operations == CompleteOperation(a.operations, work.batch.key, outcome.batch)
               && IsResult(a1, work.batch.key, outcome.batch)
             else a1.operations == a.operations
    requires outcome.Committed? ==> forall id :: !IsResult(a, work.batch.key, id)
    requires outcome.Replayed? ==> IsResult(a, work.batch.key, outcome.batch)
    requires forall q :: q in a1.attempts ==>
               (q in a.attempts && a1.attempts[q] == a.attempts[q])
                 || (q == work.operation && a1.attempts[q].key == work.batch.key)
    ensures LogOk(a1) && LogGrows(a, a1)
    ensures forall o :: o in a1.operations && a1.operations[o].published ==>
              o in a.operations && a.operations[o].published
  {
    assert forall o :: o in a1.operations <==> o in a.operations;
    forall o | o in a.operations
      ensures a1.operations[o].key == a.operations[o].key && a1.operations[o].published == a.operations[o].published
      ensures RowOk(a1, a1.operations[o])
      ensures IsTerminal(a.operations[o].state) ==>
                RowKept(a1.operations, o, a.operations[o].state, a.operations[o].batch)
    {
      assert RowOk(a, a.operations[o]);
    }
  }

  lemma MessageKept(a: Audit, a1: Audit, m: ResultMessage)
    requires LogGrows(a, a1) && MessageOk(a.operations, m)
    ensures MessageOk(a1.operations, m)
  {
  }

  lemma PublisherKept(s: System, s1: System, p: Publisher)
    requires LogGrows(s.db.audit, s1.db.audit) && PublisherOk(s, p)
    ensures PublisherOk(s1, p)
  {
  }

  lemma WorkerKept(s: System, s1: System, w: Worker)
    requires LogGrows(s.db.audit, s1.db.audit) && s.results <= s1.results && WorkerOk(s, w)
    ensures WorkerOk(s1, w)
  {
    match w
    case Announcing(work, row) => MessageKept(s.db.audit, s1.db.audit, MessageFor(work, row));
    case Announced(work, row) => MessageKept(s.db.audit, s1.db.audit, MessageFor(work, row));
    case _ =>
  }

  lemma ResultKept(results: set<ResultMessage>, results1: set<ResultMessage>, o: Uuid)
    requires HasResult(results, o) && results <= results1
    ensures HasResult(results1, o)
  {
    var m :| m in results && m.operation == o;
    assert m in results1;
  }

  /** What changed between two states is in order. */
  ghost predicate Extends(s: System, s1: System) {
    && AuditOk(s1.db.audit) && LogOk(s1.db.audit) && LogGrows(s.db.audit, s1.db.audit) && s.results <= s1.results
    && (forall work :: work in s1.work && work !in s.work ==> WorkOk(s1.db.audit.operations, work))
    && (forall m :: m in s1.results && m !in s.results ==> MessageOk(s1.db.audit.operations, m))
    && (forall o :: o in s1.db.audit.operations && s1.db.audit.operations[o].published ==>
          (o in s.db.audit.operations && s.db.audit.operations[o].published) || HasResult(s1.results, o))
    && (forall p :: p in s1.publishers ==>
        (p in s.publishers && s1.publishers[p] == s.publishers[p]) || PublisherOk(s1, s1.publishers[p]))
    && (forall w :: w in s1.workers ==>
        (w in s.workers && s1.workers[w] == s.workers[w]) || WorkerOk(s1, s1.workers[w]))
  }

  lemma ExtensionsCohere(s: System, s1: System)
    requires Coherent(s) && Extends(s, s1)
    ensures Coherent(s1)
  {
    hide AuditOk, LogOk, LogGrows, WorkerOk, PublisherOk, MessageOk, HasResult;
    forall work | work in s1.work ensures WorkOk(s1.db.audit.operations, work) {
      if work in s.work { WorkKept(s.db.audit, s1.db.audit, work); }
    }
    forall m | m in s1.results ensures MessageOk(s1.db.audit.operations, m) {
      if m in s.results { MessageKept(s.db.audit, s1.db.audit, m); }
    }
    forall o | o in s1.db.audit.operations && s1.db.audit.operations[o].published ensures HasResult(s1.results, o) {
      if o in s.db.audit.operations && s.db.audit.operations[o].published { ResultKept(s.results, s1.results, o); }
    }
    forall p | p in s1.publishers ensures PublisherOk(s1, s1.publishers[p]) {
      if p in s.publishers && s1.publishers[p] == s.publishers[p] { PublisherKept(s, s1, s.publishers[p]); }
    }
    forall w | w in s1.workers ensures WorkerOk(s1, s1.workers[w]) {
      if w in s.workers && s1.workers[w] == s.workers[w] { WorkerKept(s, s1, s.workers[w]); }
    }
  }

  lemma WorkKept(a: Audit, a1: Audit, work: Work)
    requires LogGrows(a, a1) && WorkOk(a.operations, work)
    ensures WorkOk(a1.operations, work)
  {
  }

  lemma LogReflexive(a: Audit)
    requires LogOk(a)
    ensures LogGrows(a, a)
  {
  }

  lemma OperationsDoNotMatter(a: Audit, operations: OperationRows)
    requires AuditOk(a)
    ensures AuditOk(a.(operations := operations))
  {
  }

  // ---- publisher steps

  lemma QueueExtends(s: System, p: nat, batch: Batch, fingerprint: string, newId: Uuid)
    requires Coherent(s)
    ensures Extends(s, DoQueue(s, p, batch, fingerprint, newId))
  {
    hide AuditOk, LogOk, LogGrows, WorkerOk, MessageOk, HasResult, QueueOperation;
    LogReflexive(s.db.audit);
    if PublisherAt(s, p).Resting? && batch.actor.Some? {
      var q := RequestFor(batch, fingerprint);
      var queued := QueueOperation(s.db.audit.operations, q, newId);
      if queued.Ok? {
        QueueKeepsLog(s.db.audit, q, newId);
        OperationsDoNotMatter(s.db.audit, queued.value.operations);
      }
    }
  }

  lemma PublishWorkExtends(s: System, p: nat, sent: Sent)
    requires Coherent(s)
    ensures Extends(s, DoPublishWork(s, p, sent))
  {
    hide AuditOk, LogOk, LogGrows, WorkerOk, MessageOk, HasResult;
    LogReflexive(s.db.audit);
    if p in s.publishers { assert PublisherOk(s, s.publishers[p]); }
  }

  lemma MarkUnsentExtends(s: System, p: nat)
    requires Coherent(s)
    ensures Extends(s, DoMarkUnsent(s, p))
  {
    hide AuditOk, LogOk, LogGrows, WorkerOk, MessageOk, HasResult, UpdateOperation;
    LogReflexive(s.db.audit);
    if PublisherAt(s, p).Unsent? {
      assert PublisherOk(s, s.publishers[p]);
      var u := UpdateRequest(PublisherAt(s, p).operation, OpFailed, None, PublicationFailed, false);
      if UpdateOperation(s.db.audit.operations, u).Ok? {
        UpdateKeepsLog(s.db.audit, u);
        OperationsDoNotMatter(s.db.audit, UpdateOperation(s.db.audit.operations, u).value);
      }
    }
  }

  // ---- worker steps

  lemma DeliverExtends(s: System, w: nat, work: Work)
    requires Coherent(s)
    ensures Extends(s, DoDeliver(s, w, work))
  {
    hide AuditOk, LogGrows, HasResult;
    LogReflexive(s.db.audit);
    if work in s.work {
      assert WorkOk(s.db.audit.operations, work);
      assert RowOk(s.db.audit, s.db.audit.operations[work.operation]);
    }
  }

  /** An update that is fair extends the state when the worker's next state is in order. */
  lemma UpdateExtends(s: System, w: nat, u: UpdateRequest, next: OperationRow -> Worker)
    requires Coherent(s) && u.operation in s.db.audit.operations && FairUpdate(s.db.audit, u)
    requires u.published ==> HasResult(s.results, u.operation)
    requires var r := UpdateOperation(s.db.audit.operations, u);
             r.Ok? ==> u.operation in r.value && WorkerOk(SetOperations(s, r.value), next(r.value[u.operation]))
    ensures Extends(s, DoUpdate(s, w, u, next))
  {
    hide AuditOk, LogOk, LogGrows, MessageOk, HasResult, UpdateOperation, RowOk, WorkOk;
    LogReflexive(s.db.audit);
    var r := UpdateOperation(s.db.audit.operations, u);
    if r.Ok? {
      UpdateKeepsLog(s.db.audit, u);
      OperationsDoNotMatter(s.db.audit, r.value);
    }
  }

  lemma MarkProcessingExtends(s: System, w: nat)
    requires Coherent(s)
    ensures Extends(s, DoMarkProcessing(s, w))
  {
    hide AuditOk, LogOk, LogGrows, HasResult, DoUpdate, MessageOk;
    LogReflexive(s.db.audit);
    if WorkerAt(s, w).Marking? {
      assert WorkerOk(s, s.workers[w]);
      var work := WorkerAt(s, w).work;
      var u := UpdateRequest(work.operation, Processing, None, NoCode, false);
      UpdateExtends(s, w, u, _ => Executing(work));
    }
  }

  lemma MarkSucceededExtends(s: System, w: nat)
    requires Coherent(s)
    ensures Extends(s, DoMarkSucceeded(s, w))
  {
    hide AuditOk, LogOk, LogGrows, HasResult, DoUpdate, MessageOk, UpdateOperation;
    LogReflexive(s.db.audit);
    if WorkerAt(s, w).Succeeding? {
      assert WorkerOk(s, s.workers[w]);
      var work := WorkerAt(s, w).work;
      var u := UpdateRequest(work.operation, OpSucceeded, Some(WorkerAt(s, w).batch), NoCode, false);
      if UpdateOperation(s.db.audit.operations, u).Ok? { UpdatedWorkOk(s.db.audit, u, work); }
      UpdateExtends(s, w, u, row => Announcing(work, row));
    }
  }

  lemma UpdatedWorkOk(a: Audit, u: UpdateRequest, work: Work)
    requires LogOk(a) && UpdateOperation(a.operations, u).Ok? && FairUpdate(a, u) && WorkOk(a.operations, work)
    requires work.operation == u.operation
    ensures var o := UpdateOperation(a.operations, u).value;
            && WorkOk(o, work) && (IsTerminal(u.state) ==> MessageOk(o, MessageFor(work, o[u.operation])))
  {
    hide LogOk;
    UpdateKeepsLog(a, u);
  }

  lemma MarkFailedExtends(s: System, w: nat)
    requires Coherent(s)
    ensures Extends(s, DoMarkFailed(s, w))
  {
    hide AuditOk, LogOk, LogGrows, HasResult, DoUpdate, MessageOk, UpdateOperation;
    LogReflexive(s.db.audit);
    if WorkerAt(s, w).Failing? {
      assert WorkerOk(s, s.workers[w]);
      var work := WorkerAt(s, w).work;
      var u := UpdateRequest(work.operation, OpFailed, None, StatusCode(StatusOf(WorkerAt(s, w).error)), false);
      if UpdateOperation(s.db.audit.operations, u).Ok? { UpdatedWorkOk(s.db.audit, u, work); }
      UpdateExtends(s, w, u, row => Announcing(work, row));
    }
  }

  lemma MarkPublishedExtends(s: System, w: nat)
    requires Coherent(s)
    ensures Extends(s, DoMarkPublished(s, w))
  {
    hide AuditOk, LogGrows, DoUpdate, UpdateOperation;
    LogReflexive(s.db.audit);
    if WorkerAt(s, w).Announced? {
      assert WorkerOk(s, s.workers[w]);
      var work, row := WorkerAt(s, w).work, WorkerAt(s, w).row;
      var u := UpdateRequest(work.operation, row.state, row.batch, row.failureCode, true);
      assert RowOk(s.db.audit, s.db.audit.operations[work.operation]);
      assert MessageFor(work, row) in s.results;
      if UpdateOperation(s.db.audit.operations, u).Ok? { UpdatedWorkOk(s.db.audit, u, work); }
      UpdateExtends(s, w, u, _ => Waiting);
    }
  }

  lemma PublishResultExtends(s: System, w: nat, sent: Sent)
    requires Coherent(s)
    ensures Extends(s, DoPublishResult(s, w, sent))
  {
    hide AuditOk, LogOk, LogGrows, MessageOk, HasResult;
    LogReflexive(s.db.audit);
    if WorkerAt(s, w).Announcing? { assert WorkerOk(s, s.workers[w]); }
    var s1 := DoPublishResult(s, w, sent);
    forall o | o in s1.db.audit.operations && s1.db.audit.operations[o].published
      ensures HasResult(s1.results, o)
    {
      ResultKept(s.results, s1.results, o);
    }
  }

  lemma ExecuteExtends(s: System, w: nat, env: BatchEnv)
    requires Coherent(s)
    ensures Extends(s, DoExecute(s, w, env))
  {
    hide AuditOk, LogOk, LogGrows, MessageOk, HasResult, Execute;
    LogReflexive(s.db.audit);
    if WorkerAt(s, w).Executing? && |env.steps| == |WorkerAt(s, w).work.batch.operations| {
      assert WorkerOk(s, s.workers[w]);
      var work := WorkerAt(s, w).work;
      ExecuteKeepsAudit(s.db, work.batch, env);
      ExecuteKeepsLog(s.db, work, env);
      WorkKept(s.db.audit, Execute(s.db, work.batch, env).db.audit, work);
    }
  }

  lemma NextExtends(s: System, step: Step)
    requires Coherent(s)
    ensures Extends(s, Next(s, step)) && Coherent(Next(s, step))
  {
    hide Coherent, Extends, DoQueue, DoPublishWork, DoMarkUnsent, DoDeliver, DoMarkProcessing, DoExecute,
         DoMarkSucceeded, DoMarkFailed,
      DoPublishResult, DoMarkPublished;
    match step {
      case Queue(p, batch, fingerprint, newId) => QueueExtends(s, p, batch, fingerprint, newId);
      case PublishWork(p, sent) => PublishWorkExtends(s, p, sent);
      case MarkUnsent(p) => MarkUnsentExtends(s, p);
      case StopPublisher(p) => StopExtends(s, SetPublisher(s, p, Resting));
      case Deliver(w, work) => DeliverExtends(s, w, work);
      case MarkProcessing(w) => MarkProcessingExtends(s, w);
      case ExecuteWork(w, env) => ExecuteExtends(s, w, env);
      case MarkSucceeded(w) => MarkSucceededExtends(s, w);
      case MarkFailed(w) => MarkFailedExtends(s, w);
      case PublishResult(w, sent) => PublishResultExtends(s, w, sent);
      case MarkPublished(w) => MarkPublishedExtends(s, w);
      case StopWorker(w) => StopExtends(s, SetWorker(s, w, Waiting));
    }
    ExtensionsCohere(s, Next(s, step));
  }

  lemma StopExtends(s: System, s1: System)
    requires Coherent(s) && s1 == s.(publishers := s1.publishers, workers := s1.workers)
    requires forall p :: p in s1.publishers ==>
               (p in s.publishers && s1.publishers[p] == s.publishers[p]) || s1.publishers[p].Resting?
    requires forall w :: w in s1.workers ==> (w in s.workers && s1.workers[w] == s.workers[w]) || s1.workers[w].Waiting?
    ensures Extends(s, s1)
  {
    hide AuditOk, LogOk, LogGrows, MessageOk, HasResult, WorkOk;
    LogReflexive(s.db.audit);
  }

  // ---- whole runs

  lemma LogTransitive(a: Audit, b: Audit, c: Audit)
    requires LogGrows(a, b) && LogGrows(b, c)
    ensures LogGrows(a, c)
  {
    forall o | o in a.operations && IsTerminal(a.operations[o].state)
      ensures RowKept(c.operations, o, a.operations[o].state, a.operations[o].batch)
    {
      assert RowKept(b.operations, o, a.operations[o].state, a.operations[o].batch);
    }
  }

  /**
   * Every run of the protocol keeps the system coherent, loses no row or result, and never changes a terminal state.
   */
  lemma {:induction false} RunsCohere(s: System, steps: seq<Step>)
    requires Coherent(s)
    ensures Coherent(Play(s, steps))
    ensures LogGrows(s.db.audit, Play(s, steps).db.audit) && s.results <= Play(s, steps).results
    decreases |steps|
  {
    hide Coherent, Next, LogGrows;
    if steps == [] {
      CoherentParts(s);
      LogReflexive(s.db.audit);
    } else {
      var before := Play(s, steps[..|steps| - 1]);
      RunsCohere(s, steps[..|steps| - 1]);
      NextExtends(before, steps[|steps| - 1]);
      LogTransitive(s.db.audit, before.db.audit, Play(s, steps).db.audit);
    }
  }

  lemma CoherentParts(s: System)
    requires Coherent(s)
    ensures AuditOk(s.db.audit) && LogOk(s.db.audit)
  {
  }

  /**
   * The business tables stay reachable, so everything proved of reachable states holds in every run of the protocol.
   */
  lemma {:induction false} RunsStayReachable(seeds: map<Uuid, Wallet>, s: System, steps: seq<Step>)
    requires Coherent(s) && Reachable(seeds, s.db.tables)
    ensures Reachable(seeds, Play(s, steps).db.tables) && Evolves(s.db.tables, Play(s, steps).db.tables)
    decreases |steps|
  {
    hide Coherent, Next, Reachable, Evolves;
    if steps == [] {
      EvolvesReflexive(s.db.tables);
    } else {
      var before := Play(s, steps[..|steps| - 1]);
      RunsStayReachable(seeds, s, steps[..|steps| - 1]);
      RunsCohere(s, steps[..|steps| - 1]);
      NextReachable(seeds, before, steps[|steps| - 1]);
      EvolvesTransitive(s.db.tables, before.db.tables, Play(s, steps).db.tables);
    }
  }

  lemma NextReachable(seeds: map<Uuid, Wallet>, s: System, step: Step)
    requires Coherent(s) && Reachable(seeds, s.db.tables)
    ensures Reachable(seeds, Next(s, step).db.tables) && Evolves(s.db.tables, Next(s, step).db.tables)
  {
    hide Reachable, Evolves, Execute, QueueOperation, UpdateOperation, AuditOk, LogOk, MessageOk, HasResult;
    EvolvesReflexive(s.db.tables);
    if step.ExecuteWork? && WorkerAt(s, step.w).Executing?
      && |step.env.steps| == |WorkerAt(s, step.w).work.batch.operations| {
      assert WorkerOk(s, s.workers[step.w]);
      CallKeepsReachable(seeds, s.db, WorkerAt(s, step.w).work.batch, step.env);
    }
  }

  /** In a coherent state a key has at most one COMPLETED batch, and a SUCCEEDED operation names it. */
  lemma OneCompletedBatch(s: System, b: Uuid, c: Uuid, o: Uuid)
    requires Coherent(s)
    ensures var a := s.db.audit;
            && (b in a.batches && c in a.batches && a.batches[b].key == a.batches[c].key ==>
                  a.batches[b].state.RunCompleted? && a.batches[c].state.RunCompleted? ==> b == c)
            && (o in a.operations && a.operations[o].state.OpSucceeded? ==>
                  a.operations[o].batch.Some? && IsResult(a, a.operations[o].key, a.operations[o].batch.value)
                  && a.operations[o].batch.value in a.batches
                  && a.batches[a.operations[o].batch.value].state.RunCompleted?
                  && a.batches[a.operations[o].batch.value].key == a.operations[o].key)
  {
    hide WorkerOk, PublisherOk, MessageOk, HasResult, WorkOk, BatchesOk, Numbered;
    var a := s.db.audit;
    if b in a.batches { assert KeyOk(a.keys, a.batches, a.batches[b].key); }
    if o in a.operations && a.operations[o].state.OpSucceeded? {
      assert RowOk(a, a.operations[o]);
      assert KeyOk(a.keys, a.batches, a.operations[o].key);
    }
  }

  /**
   * Through the workers a key is attempted at most once, since its one operation identifier is the request identifier.
   */
  lemma OneAttemptPerKey(s: System, r: Uuid, q: Uuid)
    requires Coherent(s) && r in s.db.audit.attempts && q in s.db.audit.attempts
    requires s.db.audit.attempts[r].key == s.db.audit.attempts[q].key
    ensures r == q
  {
    hide WorkerOk, PublisherOk, MessageOk, HasResult, WorkOk, AuditOk, RowOk;
    var a := s.db.audit;
    assert HasKey(a.operations, r, a.attempts[r].key) && HasKey(a.operations, q, a.attempts[q].key);
  }

  /** The step is an execution of a batch under `key` that commits. */
  ghost predicate Commits(s: System, step: Step, key: string) {
    && step.ExecuteWork? && WorkerAt(s, step.w).Executing?
    && var batch := WorkerAt(s, step.w).work.batch;
    && |step.env.steps| == |batch.operations| && batch.key == key
    && Execute(s.db, batch, step.env).outcome.Committed?
  }

  lemma CommitNeedsFreshKey(s: System, step: Step, key: string, id: Uuid)
    requires Coherent(s) && Commits(s, step, key)
    ensures !IsResult(s.db.audit, key, id)
    ensures IsResult(Next(s, step).db.audit, key, Execute(s.db, WorkerAt(s, step.w).work.batch, step.env).outcome.batch)
  {
    hide Execute, AuditOk, LogOk, MessageOk, HasResult, WorkOk;
    ExecutedRows(s.db, WorkerAt(s, step.w).work.batch, step.env);
  }

  /**
   * Business effects apply at most once: in a run with any number of deliveries, workers and crashes, no two steps
   * commit a batch under the same key, whatever operations the two pieces of work carry.
   */
  lemma EffectsApplyOnce(s: System, steps: seq<Step>, i: nat, j: nat, key: string)
    requires Coherent(s) && i < j < |steps|
    requires Commits(Play(s, steps[..i]), steps[i], key)
    ensures !Commits(Play(s, steps[..j]), steps[j], key)
  {
    hide Coherent, Next, Commits, Play;
    var id := CommitStays(s, steps, i, j, key);
    RunsCohere(s, steps[..j]);
    if Commits(Play(s, steps[..j]), steps[j], key) { CommitNeedsFreshKey(Play(s, steps[..j]), steps[j], key, id); }
  }

  lemma CommitStays(s: System, steps: seq<Step>, i: nat, j: nat, key: string) returns (id: Uuid)
    requires Coherent(s) && i < j <= |steps| && Commits(Play(s, steps[..i]), steps[i], key)
    ensures IsResult(Play(s, steps[..j]).db.audit, key, id)
  {
    hide Coherent, Next, Commits, LogGrows, IsResult;
    var si := Play(s, steps[..i]);
    RunsCohere(s, steps[..i]);
    id := CommittedBatch(si, steps[i], key);
    NextExtends(si, steps[i]);
    PlaySplits(s, steps[..j], i + 1);
    assert steps[..j][..i + 1] == steps[..i + 1] && steps[..i + 1][..i] == steps[..i];
    RunsCohere(Next(si, steps[i]), steps[..j][i + 1..]);
    ResultGrows(Next(si, steps[i]).db.audit, Play(s, steps[..j]).db.audit, key, id);
  }

  lemma CommittedBatch(s: System, step: Step, key: string) returns (id: Uuid)
    requires Coherent(s) && Commits(s, step, key)
    ensures IsResult(Next(s, step).db.audit, key, id)
  {
    hide Coherent, Next, Execute;
    id := Execute(s.db, WorkerAt(s, step.w).work.batch, step.env).outcome.batch;
    CommitNeedsFreshKey(s, step, key, id);
  }

  lemma ResultGrows(a: Audit, a1: Audit, key: string, id: Uuid)
    requires LogGrows(a, a1) && IsResult(a, key, id)
    ensures IsResult(a1, key, id)
  {
  }

  lemma {:induction false} PlaySplits(s: System, steps: seq<Step>, i: nat)
    requires i <= |steps|
    ensures Play(s, steps) == Play(Play(s, steps[..i]), steps[i..])
    decreases |steps|
  {
    hide Next;
    if i == |steps| {
      assert steps[..i] == steps;
    } else {
      var front := steps[..|steps| - 1];
      PlaySplits(s, front, i);
      assert front[..i] == steps[..i] && steps[i..][..|steps| - i - 1] == front[i..];
    }
  }

  /** A success result, once published, is accepted by result validation in every later state. */
  lemma PublishedSuccessIsAccepted(s: System, steps: seq<Step>, m: ResultMessage)
    requires Coherent(s) && m in s.results && m.state.OpSucceeded?
    ensures var later := Play(s, steps);
            && m in later.results && m.operation in later.db.audit.operations
            && Validates(m.batch, m.failureCode, later.db.audit.operations[m.operation])
  {
    hide Play, AuditOk, WorkerOk, PublisherOk, HasResult, WorkOk;
    RunsCohere(s, steps);
    var later := Play(s, steps);
    assert MessageOk(later.db.audit.operations, m);
    assert RowOk(later.db.audit, later.db.audit.operations[m.operation]);
  }

  /**
   * Once marked published, an operation has a result in the topic, in every later state, with its final state and
   * batch.
   */
  lemma PublishedHasResult(s: System, steps: seq<Step>, o: Uuid)
    requires Coherent(s) && o in s.db.audit.operations && s.db.audit.operations[o].published
    ensures var later := Play(s, steps);
            && o in later.db.audit.operations && later.db.audit.operations[o].published
            && exists m :: m in later.results && m.operation == o
                           && RowKept(later.db.audit.operations, o, m.state, m.batch)
  {
    hide Play, AuditOk, WorkerOk, PublisherOk, WorkOk, LogOk;
    RunsCohere(s, steps);
    var later := Play(s, steps);
    assert HasResult(s.results, o);
    var m :| m in s.results && m.operation == o;
    assert MessageOk(later.db.audit.operations, m);
  }

  lemma FailedKeyStep(s: System, step: Step, key: string)
    requires Coherent(s) && key in s.db.audit.keys && s.db.audit.keys[key].state.RunFailed?
    ensures key in Next(s, step).db.audit.keys && Next(s, step).db.audit.keys[key] == s.db.audit.keys[key]
  {
    hide Run, CommitOk, AuthorizePlan, ValidatePlan, LastNumber, FailedSteps, CompletedSteps, ResultsOf,
         CompleteOperation, QueueOperation,
      UpdateOperation, MessageOk, HasResult, PublisherOk, AttemptAudit, Numbered, AuditOk, LogOk;
    if step.ExecuteWork? && WorkerAt(s, step.w).Executing?
      && |step.env.steps| == |WorkerAt(s, step.w).work.batch.operations| {
      assert WorkerOk(s, s.workers[step.w]);
      UsedRequest(s.db.audit, WorkerAt(s, step.w).work, key);
      OtherKeysKept(s.db, WorkerAt(s, step.w).work.batch, step.env, key);
    }
  }

  /** A failed key has used up the request identifier of its operation. */
  lemma UsedRequest(a: Audit, work: Work, key: string)
    requires AuditOk(a) && LogOk(a) && WorkOk(a.operations, work) && key in a.keys && a.keys[key].state.RunFailed?
    ensures work.batch.key == key ==> work.operation in a.attempts
  {
    hide RowOk, Numbered, StepsOk, PlanAdmitted;
    assert KeyOk(a.keys, a.batches, key);
    var b :| b in a.batches && a.batches[b].key == key;
    assert HasKey(a.operations, a.batches[b].request, key);
  }

  lemma OtherKeysKept(db: Database, batch: Batch, env: BatchEnv, key: string)
    requires |env.steps| == |batch.operations| && key in db.audit.keys && db.audit.keys[key].state.RunFailed?
    requires batch.key == key ==> batch.requestId.Some? && batch.requestId.value in db.audit.attempts
    ensures key in Execute(db, batch, env).db.audit.keys
    ensures Execute(db, batch, env).db.audit.keys[key] == db.audit.keys[key]
  {
    hide Run, CommitOk, AuthorizePlan, ValidatePlan, LastNumber, FailedSteps, CompletedSteps, ResultsOf,
         CompleteOperation;
  }

  /** A key whose attempt failed stays FAILED in every run: redelivered work for it is never attempted again. */
  lemma {:induction false} FailedKeyIsFinal(s: System, steps: seq<Step>, key: string)
    requires Coherent(s) && key in s.db.audit.keys && s.db.audit.keys[key].state.RunFailed?
    ensures key in Play(s, steps).db.audit.keys && Play(s, steps).db.audit.keys[key] == s.db.audit.keys[key]
    decreases |steps|
  {
    hide Coherent, Next;
    if steps != [] {
      FailedKeyIsFinal(s, steps[..|steps| - 1], key);
      RunsCohere(s, steps[..|steps| - 1]);
      FailedKeyStep(Play(s, steps[..|steps| - 1]), steps[|steps| - 1], key);
    }
  }

  // ---- operations of a failed key

  lemma AuthorizationErrors(b: Tables, batch: Batch)
    requires batch.intent != Unspecified && ValidatePlan(batch).Ok? && AuthorizePlan(b, batch).Err?
    ensures IsPermanent(AuthorizePlan(b, batch).error)
  {
    if batch.intent == Cancel {
      var state := First(batch.operations, IsStateChange());
      if state.Some? { CountErrors(b, batch.actor.value, state.value.trade, batch.operations, |batch.operations|); }
    }
  }

  lemma {:induction false} CountErrors(b: Tables, actor: int, trade: Uuid, ops: seq<Command>, n: nat)
    requires n <= |ops|
    ensures CountReturns(b, actor, trade, ops, n).Err? ==> IsPermanent(CountReturns(b, actor, trade, ops, n).error)
  {
    if n > 0 { CountErrors(b, actor, trade, ops, n - 1); }
  }

  lemma ValidationErrors(batch: Batch)
    requires ValidatePlan(batch).Err?
    ensures IsPermanent(ValidatePlan(batch).error)
  {
  }

  /**
   * What a worker does with redelivered work of a failed key: nothing is written; it goes on to mark the operation
   * FAILED exactly when the plan is now invalid or refused by authorization, and otherwise gives up to try again.
   */
  lemma RedeliveryOfFailedKey(s: System, w: nat, env: BatchEnv)
    requires Coherent(s) && WorkerAt(s, w).Executing? && |env.steps| == |WorkerAt(s, w).work.batch.operations|
    requires var key := WorkerAt(s, w).work.batch.key; key in s.db.audit.keys && s.db.audit.keys[key].state.RunFailed?
    ensures var work, s1 := WorkerAt(s, w).work, DoExecute(s, w, env);
            && s1.db == s.db
            && (WorkerAt(s1, w).Waiting? || WorkerAt(s1, w).Failing?)
            && (WorkerAt(s1, w).Failing? <==>
                  || ValidatePlan(work.batch).Err? || work.batch.operations == []
                  || (FingerprintOf(work.batch) == s.db.audit.keys[work.batch.key].fingerprint
                      && AuthorizePlan(s.db.tables, work.batch).Err?))
  {
    hide AuthorizePlan, ValidatePlan, AuditOk, LogOk, MessageOk, HasResult, PublisherOk, Attempt;
    assert WorkerOk(s, s.workers[w]);
    var work := WorkerAt(s, w).work;
    UsedRequest(s.db.audit, work, work.batch.key);
    if ValidatePlan(work.batch).Err? {
      ValidationErrors(work.batch);
    } else if AuthorizePlan(s.db.tables, work.batch).Err? {
      AuthorizationErrors(s.db.tables, work.batch);
    }
  }

  /**
   * The step marks operation `o` FAILED: a worker that failed permanently, or a publisher whose message was not
   * acknowledged.
   */
  ghost predicate FailsHere(s: System, step: Step, o: Uuid) {
    || (step.MarkFailed? && WorkerAt(s, step.w).Failing? && WorkerAt(s, step.w).work.operation == o)
    || (step.MarkUnsent? && PublisherAt(s, step.p) == Unsent(o))
  }

  /** The operation is logged under a failed key. */
  ghost predicate UnderFailedKey(a: Audit, o: Uuid, key: string) {
    HasKey(a.operations, o, key) && key in a.keys && a.keys[key].state.RunFailed?
  }

  lemma UpdatedState(operations: OperationRows, u: UpdateRequest, o: Uuid)
    requires o in operations && UpdateOperation(operations, u).Ok?
    ensures var after := UpdateOperation(operations, u).value;
            o in after && after[o].state == (if o == u.operation then u.state else operations[o].state)
  {
  }

  lemma CompletedState(db: Database, batch: Batch, env: BatchEnv, o: Uuid)
    requires |env.steps| == |batch.operations| && AuditOk(db.audit) && o in db.audit.operations
    requires db.audit.operations[o].key == batch.key ==> !Succeeded(Execute(db, batch, env).outcome)
    ensures var after := Execute(db, batch, env).db.audit.operations;
            o in after && after[o] == db.audit.operations[o]
  {
    hide Execute, AuditOk;
    ExecutedRows(db, batch, env);
  }

  /** A step that ends an operation of a failed key marks it FAILED, and is a worker's or publisher's failure step. */
  lemma StuckStep(s: System, step: Step, o: Uuid, key: string)
    requires Coherent(s) && UnderFailedKey(s.db.audit, o, key) && !IsTerminal(s.db.audit.operations[o].state)
    ensures var row := Next(s, step).db.audit.operations;
            o in row && (!IsTerminal(row[o].state) || (row[o].state.OpFailed? && FailsHere(s, step, o)))
  {
    hide Execute, AuditOk, LogOk, HasResult, QueueOperation, UpdateOperation;
    var ops := s.db.audit.operations;
    match step
    case Queue(p, batch, fingerprint, newId) =>
      if PublisherAt(s, p).Resting? && batch.actor.Some? {
        QueuedState(ops, RequestFor(batch, fingerprint), newId, o);
      }
    case MarkUnsent(p) =>
      if PublisherAt(s, p).Unsent? {
        var u := UpdateRequest(PublisherAt(s, p).operation, OpFailed, None, PublicationFailed, false);
        if UpdateOperation(ops, u).Ok? { UpdatedState(ops, u, o); }
      }
    case MarkProcessing(w) =>
      if WorkerAt(s, w).Marking? {
        var u := UpdateRequest(WorkerAt(s, w).work.operation, Processing, None, NoCode, false);
        if UpdateOperation(ops, u).Ok? { UpdatedState(ops, u, o); }
      }
    case ExecuteWork(w, env) =>
      if WorkerAt(s, w).Executing? && |env.steps| == |WorkerAt(s, w).work.batch.operations| {
        ExecuteKeepsStuck(s, w, env, o, key);
      }
    case MarkSucceeded(w) =>
      if WorkerAt(s, w).Succeeding? {
        assert WorkerOk(s, s.workers[w]);
        var u := UpdateRequest(WorkerAt(s, w).work.operation, OpSucceeded, Some(WorkerAt(s, w).batch), NoCode, false);
        if UpdateOperation(ops, u).Ok? { UpdatedState(ops, u, o); }
      }
    case MarkFailed(w) =>
      if WorkerAt(s, w).Failing? {
        var u := UpdateRequest(WorkerAt(s, w).work.operation, OpFailed, None,
                               StatusCode(StatusOf(WorkerAt(s, w).error)), false);
        if UpdateOperation(ops, u).Ok? { UpdatedState(ops, u, o); }
      }
    case MarkPublished(w) =>
      if WorkerAt(s, w).Announced? {
        assert WorkerOk(s, s.workers[w]);
        var row := WorkerAt(s, w).row;
        var u := UpdateRequest(WorkerAt(s, w).work.operation, row.state, row.batch, row.failureCode, true);
        if UpdateOperation(ops, u).Ok? { UpdatedState(ops, u, o); }
      }
    case _ =>
  }

  lemma QueuedState(operations: OperationRows, q: QueueRequest, newId: Uuid, o: Uuid)
    requires o in operations
    ensures QueueOperation(operations, q, newId).Ok? ==>
              var after := QueueOperation(operations, q, newId).value.operations;
                o in after && after[o] == operations[o]
  {
  }

  lemma ExecuteKeepsStuck(s: System, w: nat, env: BatchEnv, o: Uuid, key: string)
    requires Coherent(s) && UnderFailedKey(s.db.audit, o, key) && o in s.db.audit.operations
    requires WorkerAt(s, w).Executing? && |env.steps| == |WorkerAt(s, w).work.batch.operations|
    ensures var after := DoExecute(s, w, env).db.audit.operations;
            o in after && after[o].state == s.db.audit.operations[o].state
  {
    hide Execute, AuditOk, LogOk, MessageOk, HasResult, PublisherOk, WorkOk;
    if WorkerAt(s, w).work.batch.key == key {
      RedeliveryOfFailedKey(s, w, env);
    } else {
      CompletedState(s.db, WorkerAt(s, w).work.batch, env, o);
    }
  }

  /**
   * An operation of a failed key never becomes SUCCEEDED. In every run it stays without an end, unless some step of the
   * run is a failure step of a worker or publisher for it, which makes it FAILED.
   */
  lemma {:induction false} FailedKeyNeverSucceeds(s: System, steps: seq<Step>, o: Uuid, key: string)
    requires Coherent(s) && UnderFailedKey(s.db.audit, o, key) && !IsTerminal(s.db.audit.operations[o].state)
    ensures var rows := Play(s, steps).db.audit.operations;
            && o in rows && (!IsTerminal(rows[o].state) || rows[o].state.OpFailed?)
            && (IsTerminal(rows[o].state) ==>
                exists i :: 0 <= i < |steps| && FailsHere(Play(s, steps[..i]), steps[i], o))
    decreases |steps|
  {
    hide Coherent, Next, FailsHere, LogGrows;
    if steps != [] {
      var n := |steps| - 1;
      var front := steps[..n];
      var before := Play(s, front);
      FailedKeyNeverSucceeds(s, front, o, key);
      RunsCohere(s, front);
      if IsTerminal(before.db.audit.operations[o].state) {
        var i :| 0 <= i < |front| && FailsHere(Play(s, front[..i]), front[i], o);
        assert front[..i] == steps[..i];
        NextExtends(before, steps[n]);
        TerminalKept(before.db.audit, Play(s, steps).db.audit, o);
        assert FailsHere(Play(s, steps[..i]), steps[i], o);
      } else {
        FailedKeyIsFinal(s, front, key);
        KeyKept(s.db.audit, before.db.audit, o, key);
        StuckStep(before, steps[n], o, key);
        assert FailsHere(before, steps[n], o) ==> FailsHere(Play(s, steps[..n]), steps[n], o);
      }
    }
  }

  lemma TerminalKept(a: Audit, a1: Audit, o: Uuid)
    requires LogGrows(a, a1) && o in a.operations && IsTerminal(a.operations[o].state)
    ensures o in a1.operations && a1.operations[o].state == a.operations[o].state
  {
  }

  lemma KeyKept(a: Audit, a1: Audit, o: Uuid, key: string)
    requires LogGrows(a, a1) && HasKey(a.operations, o, key)
    ensures HasKey(a1.operations, o, key)
  {
  }

  /** The system before anything was queued. */
  lemma FreshSystemCoheres(tables: Tables)
    ensures Coherent(System(Database(tables, Audit(map[], map[], map[], map[], map[])), {}, {}, map[], map[]))
  {
    var empty: map<Uuid, AttemptRow> := map[];
    forall k ensures Numbered(empty, k) { assert NumbersOk(empty, k, 0); }
  }
}
