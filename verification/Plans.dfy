/** Batch commands and the three plan grammars: what ISSUE, ACCEPT and CANCEL batches may contain. */
module Plans {
  import opened Prelude
  import opened Tables

  datatype Intent = Unspecified | Issue | Accept | Cancel

  /** The request fingerprint, kept as the material it hashes; `OtherText` is any other assertion text. */
  datatype Fingerprint =
    | Fingerprint(intent: Intent, externalId: Option<string>, actor: Option<int>, operations: seq<Command>)
    | OtherText(text: string)

  datatype Batch = Batch(intent: Intent, key: string, assertion: Option<Fingerprint>, externalId: Option<string>,
                         actor: Option<int>, operations: seq<Command>, requestId: Option<Uuid>)

  function FingerprintOf(batch: Batch): Fingerprint {
    Fingerprint(batch.intent, batch.externalId, batch.actor, batch.operations)
  }

  // ---- the validators

  function At(ops: seq<Command>, i: nat): Option<Command> {
    if i < |ops| then Some(ops[i]) else None
  }

  function ValidateIssue(actor: int, ops: seq<Command>): Result<()> {
    var shaped := |ops| == 2 && ops[0].CreateTradeRow? && ops[1].StackToEscrow?;
    :- Need(shaped, InvalidArgument);
    :- Need(ops[0].issuer == actor, PermissionDenied);
    :- Need(ops[0].tradeId == Some(ops[1].trade) && ops[0].total == ops[1].quantity, InvalidArgument);
    Ok(())
  }

  method ValidateAccept(actor: int, ops: seq<Command>) returns (r: Result<()>)
    ensures r.Ok? <==> exists p :: AcceptPlanOk(actor, p) && ops == AcceptOps(p)
    ensures r == CheckAccept(actor, ops)
  {
    AcceptGrammar(actor, ops);
    var index := 0;
    if 0 < |ops| && ops[0].CreateEmptyStack? {
      var destination := ops[0];
      :- Need(destination.owner == actor, PermissionDenied);
      index := index + 1;
    }
    :- Need(index < |ops| && ops[index].WalletToEscrow?, InvalidArgument);
    :- Need(index + 1 < |ops| && ops[index + 1].EscrowToNewOwnerStack?, InvalidArgument);
    :- Need(index + 2 < |ops| && ops[index + 2].EscrowToNewOwnerWallet?, InvalidArgument);
    var debit, credit := ops[index], ops[index + 2];
    :- Need(debit.walletEscrowId == Some(credit.walletEscrow) && debit.amount == credit.amount, InvalidArgument);
    index := index + 3;
    if index < |ops| && ops[index].ModifyTradeState? {
      var state := ops[index];
      :- Need(CompletionOk(debit, state), InvalidArgument);
      index := index + 1;
    }
    :- Need(index == |ops|, InvalidArgument);
    return Ok(());
  }

  method ValidateCancel(ops: seq<Command>) returns (r: Result<()>)
    ensures r.Ok? <==> exists p :: CancelPlanOk(p) && ops == CancelOps(p)
    ensures r == CheckCancel(ops)
  {
    CancelGrammar(ops);
    var index := 0;
    if index < |ops| && ops[index].EscrowToPreviousOwnerStack? { index := index + 1; }
    if index < |ops| && ops[index].EscrowToPreviousOwnerWallet? { index := index + 1; }
    :- Need(index < |ops| && ops[index].ModifyTradeState?, InvalidArgument);
    :- Need(CancellationOk(ops[index]), InvalidArgument);
    index := index + 1;
    :- Need(index == |ops|, InvalidArgument);
    return Ok(());
  }

  // ---- the grammars

  /** An ACCEPT plan: an optional destination stack, then debit, delivery and credit, then an optional completion. */
  datatype AcceptPlan = AcceptPlan(create: Option<Command>, debit: Command, delivery: Command, credit: Command,
                                   completion: Option<Command>)

  function Optional(c: Option<Command>): seq<Command> { if c.Some? then [c.value] else [] }

  function AcceptOps(p: AcceptPlan): seq<Command> {
    Optional(p.create) + [p.debit, p.delivery, p.credit] + Optional(p.completion)
  }

  predicate CompletionOk(debit: Command, completion: Command)
    requires debit.WalletToEscrow? && completion.ModifyTradeState?
  {
    completion.trade == debit.trade && completion.toState == Named(Completed) && completion.changeKind.AcceptedByBuyer?
  }

  predicate AcceptPlanOk(actor: int, p: AcceptPlan) {
    && (p.create.Some? ==> p.create.value.CreateEmptyStack? && p.create.value.owner == actor)
    && p.debit.WalletToEscrow? && p.delivery.EscrowToNewOwnerStack? && p.credit.EscrowToNewOwnerWallet?
    && p.debit.walletEscrowId == Some(p.credit.walletEscrow) && p.debit.amount == p.credit.amount
    && (p.completion.Some? ==> p.completion.value.ModifyTradeState? && CompletionOk(p.debit, p.completion.value))
  }

  /** A CANCEL plan: an optional item return, an optional ISK return, then the cancellation. */
  datatype CancelPlan = CancelPlan(items: Option<Command>, isk: Option<Command>, state: Command)

  function CancelOps(p: CancelPlan): seq<Command> {
    Optional(p.items) + Optional(p.isk) + [p.state]
  }

  predicate CancellationOk(state: Command)
    requires state.ModifyTradeState?
  {
    state.toState == Named(Cancelled) && state.changeKind.CancelledByIssuer?
  }

  predicate CancelPlanOk(p: CancelPlan) {
    && (p.items.Some? ==> p.items.value.EscrowToPreviousOwnerStack?)
    && (p.isk.Some? ==> p.isk.value.EscrowToPreviousOwnerWallet?)
    && p.state.ModifyTradeState? && CancellationOk(p.state)
  }

  // ---- reading a plan off an operation list

  function Lead(ops: seq<Command>): nat {
    if At(ops, 0).Some? && ops[0].CreateEmptyStack? then 1 else 0
  }

  predicate HasAcceptCore(ops: seq<Command>) {
    var i := Lead(ops);
    && i + 2 < |ops|
    && ops[i].WalletToEscrow? && ops[i + 1].EscrowToNewOwnerStack? && ops[i + 2].EscrowToNewOwnerWallet?
  }

  function ReadAccept(ops: seq<Command>): (p: AcceptPlan)
    requires HasAcceptCore(ops)
  {
    var i := Lead(ops);
    AcceptPlan(if i == 1 then Some(ops[0]) else None, ops[i], ops[i + 1], ops[i + 2],
               if i + 3 < |ops| then Some(ops[i + 3]) else None)
  }

  function CheckAccept(actor: int, ops: seq<Command>): Result<()> {
    if Lead(ops) == 1 && ops[0].owner != actor then Err(PermissionDenied)
    else if HasAcceptCore(ops) && AcceptPlanOk(actor, ReadAccept(ops)) && |ops| <= Lead(ops) + 4 then Ok(())
    else Err(InvalidArgument)
  }

  lemma AcceptGrammar(actor: int, ops: seq<Command>)
    ensures CheckAccept(actor, ops).Ok? <==> exists p :: AcceptPlanOk(actor, p) && ops == AcceptOps(p)
    ensures CheckAccept(actor, ops).Ok? ==> ops == AcceptOps(ReadAccept(ops))
    ensures forall p :: AcceptPlanOk(actor, p) && ops == AcceptOps(p) ==> HasAcceptCore(ops) && p == ReadAccept(ops)
  {
    if CheckAccept(actor, ops).Ok? {
      var p := ReadAccept(ops);
      assert ops == AcceptOps(p);
    }
    forall p | AcceptPlanOk(actor, p) && ops == AcceptOps(p)
      ensures HasAcceptCore(ops) && p == ReadAccept(ops) && CheckAccept(actor, ops).Ok?
    {
      var i := |Optional(p.create)|;
      assert ops[i] == p.debit && ops[i + 1] == p.delivery && ops[i + 2] == p.credit;
      assert p.create.Some? ==> ops[0] == p.create.value;
      assert p.completion.Some? ==> ops[i + 3] == p.completion.value;
    }
  }

  predicate HasCancelCore(ops: seq<Command>) {
    || (|ops| == 1 && ops[0].ModifyTradeState?)
    || (|ops| == 2 && ops[1].ModifyTradeState?
        && (ops[0].EscrowToPreviousOwnerStack? || ops[0].EscrowToPreviousOwnerWallet?))
    || (|ops| == 3 && ops[2].ModifyTradeState? && ops[0].EscrowToPreviousOwnerStack?
        && ops[1].EscrowToPreviousOwnerWallet?)
  }

  function ReadCancel(ops: seq<Command>): (p: CancelPlan)
    requires HasCancelCore(ops)
  {
    CancelPlan(if ops[0].EscrowToPreviousOwnerStack? then Some(ops[0]) else None,
               if |ops| >= 2 && ops[|ops| - 2].EscrowToPreviousOwnerWallet? then Some(ops[|ops| - 2]) else None,
               ops[|ops| - 1])
  }

  function CheckCancel(ops: seq<Command>): Result<()> {
    if HasCancelCore(ops) && CancelPlanOk(ReadCancel(ops)) then Ok(()) else Err(InvalidArgument)
  }

  lemma CancelGrammar(ops: seq<Command>)
    ensures CheckCancel(ops).Ok? <==> exists p :: CancelPlanOk(p) && ops == CancelOps(p)
    ensures CheckCancel(ops).Ok? ==> ops == CancelOps(ReadCancel(ops))
    ensures forall p :: CancelPlanOk(p) && ops == CancelOps(p) ==> HasCancelCore(ops) && p == ReadCancel(ops)
  {
    if CheckCancel(ops).Ok? {
      var p := ReadCancel(ops);
      assert ops == CancelOps(p);
    }
    forall p | CancelPlanOk(p) && ops == CancelOps(p)
      ensures HasCancelCore(ops) && p == ReadCancel(ops)
    {
      var i := |Optional(p.items)|;
      var j := |Optional(p.isk)|;
      assert ops[i + j] == p.state;
      assert p.items.Some? ==> ops[0] == p.items.value;
      assert p.isk.Some? ==> ops[i] == p.isk.value;
    }
  }

  /** validate_plan_semantics. */
  function ValidatePlan(batch: Batch): Result<()> {
    if batch.actor.None? then Err(InvalidArgument) else
    match batch.intent
    case Issue => ValidateIssue(batch.actor.value, batch.operations)
    case Accept => CheckAccept(batch.actor.value, batch.operations)
    case Cancel => CheckCancel(batch.operations)
    case Unspecified => Err(InvalidArgument)
  }
}
