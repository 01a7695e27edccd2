/** The durable operation records of the settlement service: queueing, state updates, and result validation. */
module OperationLog {
  import opened Prelude
  import opened Plans
  import opened Executor

  type OperationRows = map<Uuid, OperationRow>

  predicate IsTerminal(state: OperationState) {
    state.OpSucceeded? || state.OpFailed? || state.OpCancelled? || state.OpExpired?
  }

  /** valid_operation_transition. */
  predicate ValidTransition(current: OperationState, next: OperationState) {
    || current == next
    || (current.Queued? && (next.Processing? || next.OpFailed? || next.OpCancelled? || next.OpExpired?))
    || (current.Processing? && IsTerminal(next))
  }

  datatype QueueRequest = QueueRequest(key: string, fingerprint: string, intent: Intent, actor: int, externalId: string)

  /** NULLIF(text, ''). */
  function NullIfEmpty(text: string): Option<string> { if text == "" then None else Some(text) }

  function QueuedRow(q: QueueRequest): OperationRow {
    OperationRow(q.key, q.fingerprint, q.intent, q.actor, NullIfEmpty(q.externalId), Queued, None, NoCode, false)
  }

  datatype UpdateRequest = UpdateRequest(operation: Uuid, state: OperationState, batch: Option<Uuid>,
                                         failureCode: FailureCode, published: bool)

  datatype Logged = Logged(operations: OperationRows, id: Uuid)

  predicate HasKey(operations: OperationRows, id: Uuid, key: string) {
    id in operations && operations[id].key == key
  }

  /** queue_settlement_operation: the row of the key, or a new QUEUED row under `newId`. */
  ghost function QueueOperation(operations: OperationRows, q: QueueRequest, newId: Uuid): Result<Logged> {
    if q.intent.Unspecified? || Blank(q.key) || Blank(q.fingerprint) || q.actor <= 0 then Err(InvalidArgument)
    else if exists id :: HasKey(operations, id, q.key) then
      var id :| HasKey(operations, id, q.key);
      var row := operations[id];
      if row.requestFingerprint == q.fingerprint && row.intent == q.intent && row.actor == q.actor
        then Ok(Logged(operations, id))
      else Err(Conflict)
    else if newId in operations then Err(DatabaseError)
    else Ok(Logged(operations[newId := QueuedRow(q)], newId))
  }

  /** update_settlement_operation. */
  function UpdateOperation(operations: OperationRows, u: UpdateRequest): Result<OperationRows> {
    if u.operation !in operations then Err(NotFound) else
    var row := operations[u.operation];
    :- Need(ValidTransition(row.state, u.state), FailedPrecondition);
    :- Need(u.state.OpSucceeded? ==> u.batch.Some? || row.batch.Some?, InvalidArgument);
    :- Need(u.state.OpFailed? ==> u.failureCode != NoCode, InvalidArgument);
    Ok(operations[u.operation := row.(state := u.state, batch := if u.batch.Some? then u.batch else row.batch,
                                      failureCode := u.failureCode, published := row.published || u.published)])
  }

  /** validate settlement result: a terminal row with the batch and the failure code of the result. */
  predicate Validates(batch: Option<Uuid>, failureCode: FailureCode, row: OperationRow) {
    IsTerminal(row.state) && batch == row.batch && failureCode == row.failureCode
  }

  /** Idempotency keys are unique in the operation table. */
  ghost predicate UniqueKeys(operations: OperationRows) {
    forall o, p :: o in operations && p in operations && operations[o].key == operations[p].key ==> o == p
  }

  class OperationStore {
    var operations: OperationRows

    constructor ()
      ensures operations == map[]
    {
      operations := map[];
    }

    method Find(key: string) returns (id: Option<Uuid>)
      ensures id.Some? ==> HasKey(operations, id.value, key)
      ensures id.None? ==> forall o :: !HasKey(operations, o, key)
    {
      var rest := operations.Keys;
      while rest != {}
        invariant rest <= operations.Keys
        invariant forall o :: HasKey(operations, o, key) ==> o in rest
        decreases rest
      {
        var o :| o in rest;
        if operations[o].key == key { return Some(o); }
        rest := rest - {o};
      }
      return None;
    }

    method Queue(q: QueueRequest, newId: Uuid) returns (r: Result<Uuid>)
      requires UniqueKeys(operations)
      modifies this
      ensures UniqueKeys(operations)
      ensures forall o :: o in old(operations) ==> o in operations && operations[o] == old(operations)[o]
      ensures match QueueOperation(old(operations), q, newId)
              case Ok(l) => r == Ok(l.id) && operations == l.operations
              case Err(e) => r == Err(e) && operations == old(operations)
    {
      if q.intent.Unspecified? || Blank(q.key) || Blank(q.fingerprint) || q.actor <= 0 {
        return Err(InvalidArgument);
      }
      var existing := Find(q.key);
      if existing.Some? {
        var row := operations[existing.value];
        if row.requestFingerprint != q.fingerprint || row.intent != q.intent || row.actor != q.actor {
          return Err(Conflict);
        }
        return Ok(existing.value);
      }
      if newId in operations { return Err(DatabaseError); }
      assert forall o :: o in operations ==> !HasKey(operations, o, q.key);
      var externalId := if q.externalId == "" then None else Some(q.externalId);
      operations := operations[newId := OperationRow(q.key, q.fingerprint, q.intent, q.actor, externalId, Queued, None,
                                                     NoCode, false)];
      return Ok(newId);
    }

    method Update(u: UpdateRequest) returns (r: Result<OperationRow>)
      requires UniqueKeys(operations)
      modifies this
      ensures UniqueKeys(operations)
      ensures forall o :: o in old(operations) ==> o in operations && operations[o].key == old(operations)[o].key
      ensures forall o :: o in old(operations) && IsTerminal(old(operations)[o].state) ==>
                operations[o].state == old(operations)[o].state
      ensures forall o :: o in old(operations) && old(operations)[o].published ==> operations[o].published
      ensures match UpdateOperation(old(operations), u)
              case Ok(o) => operations == o && u.operation in o && r == Ok(o[u.operation])
              case Err(e) => r == Err(e) && operations == old(operations)
    {
      if u.operation !in operations { return Err(NotFound); }
      var current := operations[u.operation];
      if !ValidTransition(current.state, u.state) { return Err(FailedPrecondition); }
      if u.state.OpSucceeded? && u.batch.None? && current.batch.None? { return Err(InvalidArgument); }
      if u.state.OpFailed? && u.failureCode == NoCode { return Err(InvalidArgument); }
      var batch := if u.batch.Some? then u.batch else current.batch;
      var row := current.(state := u.state, batch := batch, failureCode := u.failureCode,
                          published := current.published || u.published);
      operations := operations[u.operation := row];
      return Ok(row);
    }
  }
}
