/** Plan builders of the trade rules, and the conversion of their operations through the work message to commands. */
module Messages {
  import opened Prelude
  import opened Tables
  import opened Plans
  import opened Executor

  /** The payload of an operation message; an absent identifier is the empty text. */
  datatype Payload =
    | CreateTradePayload(tradeId: Option<Uuid>, tradeKind: TradeKind, tradeState: Option<StateName>, issuer: int,
                         itemType: int, station: int, total: int, price: int, expiresAt: Option<int>)
    | ModifyTradePayload(trade: Option<Uuid>, toState: Option<StateName>, changeKind: Option<ChangeKind>,
                         service: string)
    | CreateStackPayload(stackId: Option<Uuid>, owner: int, itemType: int, station: int)
    | StackToEscrowPayload(source: Option<Uuid>, escrowId: Option<Uuid>, trade: Option<Uuid>, quantity: int)
    | NewOwnerStackPayload(escrow: Option<Uuid>, destination: Option<Uuid>, quantity: int)
    | PreviousOwnerStackPayload(escrow: Option<Uuid>, destination: Option<Uuid>, quantity: int)
    | MergePayload(source: Option<Uuid>, destination: Option<Uuid>)
    | CreateWalletEscrowPayload(walletEscrowId: Option<Uuid>, trade: Option<Uuid>, owner: int,
                                sourceWallet: Option<Uuid>)
    | WalletToEscrowPayload(sourceWallet: Option<Uuid>, walletEscrowId: Option<Uuid>, trade: Option<Uuid>, amount: int)
    | NewOwnerWalletPayload(walletEscrow: Option<Uuid>, destinationWallet: Option<Uuid>, amount: int)
    | PreviousOwnerWalletPayload(walletEscrow: Option<Uuid>, destinationWallet: Option<Uuid>, amount: int)

  /** A work operation: its kind, and the payload stored under that kind if there is one. */
  datatype WorkOperation = WorkOperation(kind: OperationKind, payload: Option<Payload>)

  function PayloadKind(p: Payload): OperationKind {
    match p
    case CreateTradePayload(_, _, _, _, _, _, _, _, _) => CreateTradeKind
    case ModifyTradePayload(_, _, _, _) => ModifyTradeKind
    case CreateStackPayload(_, _, _, _) => CreateStackKind
    case StackToEscrowPayload(_, _, _, _) => StackToEscrowKind
    case NewOwnerStackPayload(_, _, _) => NewOwnerStackKind
    case PreviousOwnerStackPayload(_, _, _) => PreviousOwnerStackKind
    case MergePayload(_, _) => MergeKind
    case CreateWalletEscrowPayload(_, _, _, _) => CreateWalletEscrowKind
    case WalletToEscrowPayload(_, _, _, _) => WalletToEscrowKind
    case NewOwnerWalletPayload(_, _, _) => NewOwnerWalletKind
    case PreviousOwnerWalletPayload(_, _, _) => PreviousOwnerWalletKind
  }

  const MARKET: string := "market"

  function Required<T>(value: Option<T>): Result<T> {
    if value.Some? then Ok(value.value) else Err(InvalidArgument)
  }

  /** toProtoOperation: the payload of the operation's kind. */
  function ToProto(op: WorkOperation): Result<Payload> {
    if op.payload.Some? && PayloadKind(op.payload.value) == op.kind then Ok(op.payload.value) else Err(InvalidArgument)
  }

  /** The validation rules of the operation messages, at a time. */
  predicate ValidPayload(p: Payload, now: int) {
    match p
    case CreateTradePayload(_, kind, state, issuer, itemType, station, total, price, expiresAt) =>
      && kind.Sell? && state == Some(Named(Open)) && issuer > 0 && itemType > 0 && station > 0 && total > 0 && price > 0
      && (expiresAt.Some? ==> now < expiresAt.value)
    case ModifyTradePayload(trade, toState, changeKind, service) =>
      && trade.Some? && toState.Some? && toState.value.Named? && changeKind.Some? && !changeKind.value.OtherChange?
      && NonBlank(service)
    case CreateStackPayload(_, owner, itemType, station) => owner > 0 && itemType > 0 && station > 0
    case StackToEscrowPayload(source, _, trade, quantity) => source.Some? && trade.Some? && quantity > 0
    case NewOwnerStackPayload(escrow, destination, quantity) => escrow.Some? && destination.Some? && quantity > 0
    case PreviousOwnerStackPayload(escrow, destination, quantity) => escrow.Some? && destination.Some? && quantity > 0
    case MergePayload(source, destination) => source.Some? && destination.Some? && source != destination
    case CreateWalletEscrowPayload(_, trade, owner, sourceWallet) => trade.Some? && owner > 0 && sourceWallet.Some?
    case WalletToEscrowPayload(sourceWallet, _, trade, amount) => sourceWallet.Some? && trade.Some? && amount > 0
    case NewOwnerWalletPayload(escrow, destination, amount) => escrow.Some? && destination.Some? && amount > 0
    case PreviousOwnerWalletPayload(escrow, destination, amount) => escrow.Some? && destination.Some? && amount > 0
  }

  /** SettlementCommand::try_from. */
  function FromProto(p: Payload): Result<Command> {
    match p
    case CreateTradePayload(id, kind, state, issuer, itemType, station, total, price, expiresAt) =>
      Ok(CreateTradeRow(id, kind, if state.Some? then state.value else Named(Open), issuer, itemType, station, total,
                        price, expiresAt))
    case ModifyTradePayload(trade, toState, changeKind, service) =>
      var t :- Required(trade);
      var s :- Required(toState);
      var k :- Required(changeKind);
      Ok(ModifyTradeState(t, s, k, if Blank(service) then MARKET else service))
    case CreateStackPayload(id, owner, itemType, station) => Ok(CreateEmptyStack(id, owner, itemType, station))
    case StackToEscrowPayload(source, id, trade, quantity) =>
      var s :- Required(source);
      var t :- Required(trade);
      Ok(StackToEscrow(s, id, t, quantity))
    case NewOwnerStackPayload(escrow, destination, quantity) =>
      var e :- Required(escrow);
      var d :- Required(destination);
      Ok(EscrowToNewOwnerStack(e, d, quantity))
    case PreviousOwnerStackPayload(escrow, destination, quantity) =>
      var e :- Required(escrow);
      var d :- Required(destination);
      Ok(EscrowToPreviousOwnerStack(e, d, quantity))
    case MergePayload(source, destination) =>
      var s :- Required(source);
      var d :- Required(destination);
      Ok(MergeStacks(s, d))
    case CreateWalletEscrowPayload(id, trade, owner, sourceWallet) =>
      var t :- Required(trade);
      var s :- Required(sourceWallet);
      Ok(CreateEmptyWalletEscrow(id, t, owner, s))
    case WalletToEscrowPayload(sourceWallet, id, trade, amount) =>
      var s :- Required(sourceWallet);
      var t :- Required(trade);
      Ok(WalletToEscrow(s, id, t, amount))
    case NewOwnerWalletPayload(escrow, destination, amount) =>
      var e :- Required(escrow);
      var d :- Required(destination);
      Ok(EscrowToNewOwnerWallet(e, d, amount))
    case PreviousOwnerWalletPayload(escrow, destination, amount) =>
      var e :- Required(escrow);
      var d :- Required(destination);
      Ok(EscrowToPreviousOwnerWallet(e, d, amount))
  }

  /** The whole way of one operation: message, validation, command. */
  function ToCommand(op: WorkOperation, now: int): Result<Command> {
    var p :- ToProto(op);
    :- Need(ValidPayload(p, now), InvalidArgument);
    FromProto(p)
  }

  /** The message of a command: conversion reads it back, so no command is lost or changed on the way. */
  function MessageOf(c: Command): WorkOperation {
    WorkOperation(KindOf(c), Some(
      match c
      case CreateTradeRow(id, kind, state, issuer, itemType, station, total, price, expiresAt) =>
        CreateTradePayload(id, kind, Some(state), issuer, itemType, station, total, price, expiresAt)
      case ModifyTradeState(trade, toState, changeKind, service) =>
        ModifyTradePayload(Some(trade), Some(toState), Some(changeKind), service)
      case CreateEmptyStack(id, owner, itemType, station) => CreateStackPayload(id, owner, itemType, station)
      case StackToEscrow(source, id, trade, quantity) => StackToEscrowPayload(Some(source), id, Some(trade), quantity)
      case EscrowToNewOwnerStack(escrow, destination, quantity) =>
        NewOwnerStackPayload(Some(escrow), Some(destination), quantity)
      case EscrowToPreviousOwnerStack(escrow, destination, quantity) =>
        PreviousOwnerStackPayload(Some(escrow), Some(destination), quantity)
      case MergeStacks(source, destination) => MergePayload(Some(source), Some(destination))
      case CreateEmptyWalletEscrow(id, trade, owner, sourceWallet) =>
        CreateWalletEscrowPayload(id, Some(trade), owner, Some(sourceWallet))
      case WalletToEscrow(sourceWallet, id, trade, amount) =>
        WalletToEscrowPayload(Some(sourceWallet), id, Some(trade), amount)
      case EscrowToNewOwnerWallet(escrow, destination, amount) =>
        NewOwnerWalletPayload(Some(escrow), Some(destination), amount)
      case EscrowToPreviousOwnerWallet(escrow, destination, amount) =>
        PreviousOwnerWalletPayload(Some(escrow), Some(destination), amount)))
  }

  /** What the validation rules ask of a command, at a time. */
  predicate ValidCommand(c: Command, now: int) {
    match c
    case CreateTradeRow(_, kind, state, issuer, itemType, station, total, price, expiresAt) =>
      && kind.Sell? && state == Named(Open) && issuer > 0 && itemType > 0 && station > 0 && total > 0 && price > 0
      && (expiresAt.Some? ==> now < expiresAt.value)
    case ModifyTradeState(_, toState, changeKind, service) =>
      toState.Named? && !changeKind.OtherChange? && NonBlank(service)
    case CreateEmptyStack(_, owner, itemType, station) => owner > 0 && itemType > 0 && station > 0
    case StackToEscrow(_, _, _, quantity) => quantity > 0
    case EscrowToNewOwnerStack(_, _, quantity) => quantity > 0
    case EscrowToPreviousOwnerStack(_, _, quantity) => quantity > 0
    case MergeStacks(source, destination) => source != destination
    case CreateEmptyWalletEscrow(_, _, owner, _) => owner > 0
    case WalletToEscrow(_, _, _, amount) => amount > 0
    case EscrowToNewOwnerWallet(_, _, amount) => amount > 0
    case EscrowToPreviousOwnerWallet(_, _, amount) => amount > 0
  }

  /** A service name that only the trimming of all white space leaves empty becomes Market's. */
  function Renamed(c: Command): Command {
    if c.ModifyTradeState? && Blank(c.service) then c.(service := MARKET) else c
  }

  /**
   * Conversion reads the message of a valid command back to that command, but for a blank service name, and refuses
   * the message of any other.
   */
  lemma MessageRoundTrip(c: Command, now: int)
    ensures ToCommand(MessageOf(c), now) == if ValidCommand(c, now) then Ok(Renamed(c)) else Err(InvalidArgument)
  {
    hide Blank, NonBlank;
  }

  function MessagesOf(commands: seq<Command>): seq<WorkOperation> {
    seq(|commands|, i requires 0 <= i < |commands| => MessageOf(commands[i]))
  }

  /** The operations convert to exactly these commands. */
  ghost predicate ConvertsTo(ops: seq<WorkOperation>, commands: seq<Command>, now: int) {
    |ops| == |commands| && forall i :: 0 <= i < |ops| ==> ToCommand(ops[i], now) == Ok(commands[i])
  }

  lemma MessagesConvert(commands: seq<Command>, now: int)
    requires forall i :: 0 <= i < |commands| ==> ValidCommand(commands[i], now)
    requires forall i :: 0 <= i < |commands| && commands[i].ModifyTradeState? ==> !Blank(commands[i].service)
    ensures ConvertsTo(MessagesOf(commands), commands, now)
  {
    hide ToCommand, MessageOf, ValidCommand, Blank;
    forall i | 0 <= i < |commands|
      ensures ToCommand(MessagesOf(commands)[i], now) == Ok(commands[i])
    {
      MessageRoundTrip(commands[i], now);
    }
  }

  /** A message converts exactly when it carries a valid payload of its kind, and the command has that kind. */
  lemma ConversionKeepsKind(op: WorkOperation, now: int)
    ensures ToCommand(op, now).Ok? <==>
              op.payload.Some? && PayloadKind(op.payload.value) == op.kind && ValidPayload(op.payload.value, now)
    ensures ToCommand(op, now).Ok? ==> KindOf(ToCommand(op, now).value) == op.kind
  {
    hide NonBlank, Blank;
  }

  /** The loop of toProtoRequest: all messages in order, or the first operation without a payload of its kind. */
  method ToProtoRequest(ops: seq<WorkOperation>) returns (r: Result<seq<Payload>>, failed: Option<nat>)
    ensures r.Ok? <==> failed.None?
    ensures r.Ok? ==> |r.value| == |ops| && forall i :: 0 <= i < |ops| ==> ToProto(ops[i]) == Ok(r.value[i])
    ensures failed.Some? ==> failed.value < |ops| && ToProto(ops[failed.value]) == Err(r.error)
    ensures failed.Some? ==> forall i :: 0 <= i < failed.value ==> ToProto(ops[i]).Ok?
  {
    hide ToProto;
    var payloads := [];
    for i := 0 to |ops|
      invariant |payloads| == i
      invariant forall j :: 0 <= j < i ==> ToProto(ops[j]) == Ok(payloads[j])
    {
      var p := ToProto(ops[i]);
      if p.Err? { return Err(p.error), Some(i); }
      payloads := payloads + [p.value];
    }
    return Ok(payloads), None;
  }

  /** The batch conversion: every payload is validated, then every payload becomes its command. */
  method FromProtoRequest(payloads: seq<Payload>, now: int) returns (r: Result<seq<Command>>)
    ensures r.Ok? <==> forall i :: 0 <= i < |payloads| ==> ValidPayload(payloads[i], now)
    ensures r.Ok? ==> |r.value| == |payloads|
    ensures r.Ok? ==> forall i :: 0 <= i < |payloads| ==> FromProto(payloads[i]) == Ok(r.value[i])
  {
    hide ValidPayload, FromProto;
    for i := 0 to |payloads|
      invariant forall j :: 0 <= j < i ==> ValidPayload(payloads[j], now)
    {
      if !ValidPayload(payloads[i], now) { return Err(InvalidArgument); }
    }
    var commands := [];
    for i := 0 to |payloads|
      invariant |commands| == i
      invariant forall j :: 0 <= j < i ==> FromProto(payloads[j]) == Ok(commands[j])
    {
      ValidConverts(payloads[i], now);
      commands := commands + [FromProto(payloads[i]).value];
    }
    return Ok(commands);
  }

  lemma ValidConverts(p: Payload, now: int)
    requires ValidPayload(p, now)
    ensures FromProto(p).Ok?
  {
    hide NonBlank, Blank;
  }

  /** From work operations to commands: all of them convert, or none is executed. */
  method Convert(ops: seq<WorkOperation>, now: int) returns (r: Result<seq<Command>>)
    ensures r.Ok? <==> forall i :: 0 <= i < |ops| ==> ToCommand(ops[i], now).Ok?
    ensures r.Ok? ==> ConvertsTo(ops, r.value, now)
  {
    hide ToProto, ValidPayload, FromProto;
    var payloads, failed := ToProtoRequest(ops);
    if payloads.Err? {
      assert ToCommand(ops[failed.value], now).Err?;
      return Err(payloads.error);
    }
    r := FromProtoRequest(payloads.value, now);
    forall i | 0 <= i < |ops|
      ensures ToCommand(ops[i], now).Ok? <==> ValidPayload(payloads.value[i], now)
    {
      if ValidPayload(payloads.value[i], now) { ValidConverts(payloads.value[i], now); }
    }
  }

  // ---- builders

  lemma MarketIsNamed()
    ensures NonBlank(MARKET) && !Blank(MARKET)
  {
    assert MARKET[0] == 'm';
  }

  datatype AcceptInput = AcceptInput(key: string, externalId: string, trade: Uuid, buyer: int, seller: int,
                                     itemType: int, station: int, quantity: int, amount: int, buyerWallet: Uuid,
                                     sellerWallet: Uuid, escrow: Uuid, destination: Option<Uuid>,
                                     createDestination: bool, walletEscrow: Option<Uuid>, complete: bool)

  datatype CancelInput = CancelInput(key: string, externalId: string, trade: Uuid, actor: int, escrow: Option<Uuid>,
                                     returnStack: Option<Uuid>, quantity: int, walletEscrow: Option<Uuid>,
                                     returnWallet: Option<Uuid>, amount: int)

  datatype IssueInput = IssueInput(key: string, externalId: string, issuer: int, stack: Uuid, owner: int,
                                   itemType: int, station: int, available: int, quantity: int, price: int,
                                   expiresAt: Option<int>, tradeId: Option<Uuid>, escrowId: Option<Uuid>)

  datatype SettlementPlan = SettlementPlan(intent: Intent, key: string, externalId: string, actor: int,
                                           operations: seq<WorkOperation>)

  /** The validation rules of the builder inputs. */
  predicate ValidAcceptInput(i: AcceptInput) {
    && NonBlank(i.key) && i.buyer > 0 && i.seller > 0 && i.buyer != i.seller
    && i.itemType > 0 && i.station > 0 && i.quantity > 0 && i.amount > 0
  }

  predicate ValidCancelInput(i: CancelInput) {
    && NonBlank(i.key) && i.actor > 0
    && (if i.escrow.Some? then i.returnStack.Some? && i.quantity > 0 else i.returnStack.None? && i.quantity == 0)
    && (if i.walletEscrow.Some? then i.returnWallet.Some? && i.amount > 0 else i.returnWallet.None? && i.amount == 0)
  }

  predicate ValidIssueInput(i: IssueInput, now: int) {
    && NonBlank(i.key) && i.issuer > 0 && i.owner == i.issuer && i.itemType > 0 && i.station > 0
    && 0 < i.quantity <= i.available && i.price > 0 && (i.expiresAt.Some? ==> now < i.expiresAt.value)
  }

  /** deterministicID; a valid input has a key, so the builders never meet its error. */
  function DeterministicId(key: string, purpose: Purpose): Result<Uuid> {
    if key == "" then Err(InvalidArgument) else Ok(Derived(key, purpose))
  }

  function IdOrDerived(id: Option<Uuid>, key: string, purpose: Purpose): Uuid {
    if id.Some? then id.value else Derived(key, purpose)
  }

  /** The commands of the plan AcceptTradeInstance builds. */
  function AcceptPlanFor(i: AcceptInput): (p: AcceptPlan)
    ensures AcceptPlanOk(i.buyer, p)
  {
    var d, w := IdOrDerived(i.destination, i.key, BuyerDestination),
      IdOrDerived(i.walletEscrow, i.key, BuyerWalletEscrow);
    AcceptPlan(if i.createDestination || i.destination.None?
                 then Some(CreateEmptyStack(Some(d), i.buyer, i.itemType, i.station)) else None,
               WalletToEscrow(i.buyerWallet, Some(w), i.trade, i.amount),
               EscrowToNewOwnerStack(i.escrow, d, i.quantity),
               EscrowToNewOwnerWallet(w, i.sellerWallet, i.amount),
               if i.complete then Some(ModifyTradeState(i.trade, Named(Completed), AcceptedByBuyer, MARKET)) else None)
  }

  lemma AcceptPlanConverts(i: AcceptInput, now: int)
    requires ValidAcceptInput(i)
    ensures ConvertsTo(MessagesOf(AcceptOps(AcceptPlanFor(i))), AcceptOps(AcceptPlanFor(i)), now)
  {
    hide ConvertsTo, NonBlank, Blank;
    MarketIsNamed();
    MessagesConvert(AcceptOps(AcceptPlanFor(i)), now);
  }

  lemma AcceptPlanValidates(i: AcceptInput)
    ensures CheckAccept(i.buyer, AcceptOps(AcceptPlanFor(i))).Ok?
  {
    AcceptGrammar(i.buyer, AcceptOps(AcceptPlanFor(i)));
  }

  /**
   * An ACCEPT plan is built exactly from a valid input; at any time it converts to the intended commands, which pass
   * validation.
   */
  method AcceptTradeInstance(i: AcceptInput) returns (r: Result<SettlementPlan>)
    ensures r.Ok? <==> ValidAcceptInput(i)
    ensures r.Ok? ==>
              && r.value.intent == Accept && r.value.key == i.key && r.value.actor == i.buyer
              && r.value.externalId == i.externalId
              && (forall now :: ConvertsTo(r.value.operations, AcceptOps(AcceptPlanFor(i)), now))
              && CheckAccept(i.buyer, AcceptOps(AcceptPlanFor(i))).Ok?
  {
    hide CheckAccept, ConvertsTo, AcceptPlanOk;
    AcceptPlanValidates(i);
    if !ValidAcceptInput(i) { return Err(InvalidArgument); }
    var destination := i.destination;
    if destination.None? {
      destination := Some(DeterministicId(i.key, BuyerDestination).value);
    }
    var walletEscrow := i.walletEscrow;
    if walletEscrow.None? {
      walletEscrow := Some(DeterministicId(i.key, BuyerWalletEscrow).value);
    }
    var ops := [];
    if i.createDestination || i.destination.None? {
      ops := ops + [WorkOperation(CreateStackKind,
                                  Some(CreateStackPayload(destination, i.buyer, i.itemType, i.station)))];
    }
    ops := ops + [
      WorkOperation(WalletToEscrowKind,
                    Some(WalletToEscrowPayload(Some(i.buyerWallet), walletEscrow, Some(i.trade), i.amount))),
      WorkOperation(NewOwnerStackKind, Some(NewOwnerStackPayload(Some(i.escrow), destination, i.quantity))),
      WorkOperation(NewOwnerWalletKind, Some(NewOwnerWalletPayload(walletEscrow, Some(i.sellerWallet), i.amount)))];
    if i.complete {
      ops := ops + [WorkOperation(ModifyTradeKind,
                                  Some(ModifyTradePayload(Some(i.trade), Some(Named(Completed)), Some(AcceptedByBuyer),
                                                          MARKET)))];
    }
    assert ops == MessagesOf(AcceptOps(AcceptPlanFor(i)));
    forall now ensures ConvertsTo(ops, AcceptOps(AcceptPlanFor(i)), now) { AcceptPlanConverts(i, now); }
    return Ok(SettlementPlan(Accept, i.key, i.externalId, i.buyer, ops));
  }

  /** The commands of the plan CancelTradeInstance builds from a valid input. */
  function CancelPlanFor(i: CancelInput): (p: CancelPlan)
    ensures CancelPlanOk(p)
  {
    CancelPlan(if i.escrow.Some? && i.returnStack.Some?
               then Some(EscrowToPreviousOwnerStack(i.escrow.value, i.returnStack.value, i.quantity)) else None,
               if i.walletEscrow.Some? && i.returnWallet.Some?
               then Some(EscrowToPreviousOwnerWallet(i.walletEscrow.value, i.returnWallet.value, i.amount)) else None,
               ModifyTradeState(i.trade, Named(Cancelled), CancelledByIssuer, MARKET))
  }

  lemma CancelPlanConverts(i: CancelInput, now: int)
    requires ValidCancelInput(i)
    ensures ConvertsTo(MessagesOf(CancelOps(CancelPlanFor(i))), CancelOps(CancelPlanFor(i)), now)
  {
    hide ConvertsTo, NonBlank, Blank;
    MarketIsNamed();
    MessagesConvert(CancelOps(CancelPlanFor(i)), now);
  }

  lemma CancelPlanValidates(i: CancelInput)
    ensures CheckCancel(CancelOps(CancelPlanFor(i))).Ok?
  {
    CancelGrammar(CancelOps(CancelPlanFor(i)));
  }

  /**
   * A CANCEL plan is built exactly from a valid input; at any time it converts to the intended commands, which pass
   * validation.
   */
  method CancelTradeInstance(i: CancelInput) returns (r: Result<SettlementPlan>)
    ensures r.Ok? <==> ValidCancelInput(i)
    ensures r.Ok? ==>
              && r.value.intent == Cancel && r.value.key == i.key && r.value.actor == i.actor
              && r.value.externalId == i.externalId
              && (forall now :: ConvertsTo(r.value.operations, CancelOps(CancelPlanFor(i)), now))
              && CheckCancel(CancelOps(CancelPlanFor(i))).Ok?
  {
    hide CheckCancel, ConvertsTo, CancelPlanOk;
    CancelPlanValidates(i);
    if !ValidCancelInput(i) { return Err(InvalidArgument); }
    var ops := [];
    if i.escrow.Some? {
      ops := ops + [WorkOperation(PreviousOwnerStackKind,
                                  Some(PreviousOwnerStackPayload(i.escrow, i.returnStack, i.quantity)))];
    }
    if i.walletEscrow.Some? {
      ops := ops + [WorkOperation(PreviousOwnerWalletKind,
                                  Some(PreviousOwnerWalletPayload(i.walletEscrow, i.returnWallet, i.amount)))];
    }
    ops := ops + [WorkOperation(ModifyTradeKind,
                                Some(ModifyTradePayload(Some(i.trade), Some(Named(Cancelled)), Some(CancelledByIssuer),
                                                        MARKET)))];
    assert ops == MessagesOf(CancelOps(CancelPlanFor(i)));
    forall now ensures ConvertsTo(ops, CancelOps(CancelPlanFor(i)), now) { CancelPlanConverts(i, now); }
    return Ok(SettlementPlan(Cancel, i.key, i.externalId, i.actor, ops));
  }

  /** The two commands of the plan IssueTradeInstance builds. */
  function IssueOps(i: IssueInput): seq<Command> {
    var t, e := IdOrDerived(i.tradeId, i.key, TradeInstance), IdOrDerived(i.escrowId, i.key, ItemStackEscrow);
    [CreateTradeRow(Some(t), Sell, Named(Open), i.issuer, i.itemType, i.station, i.quantity, i.price, i.expiresAt),
     StackToEscrow(i.stack, Some(e), t, i.quantity)]
  }

  lemma IssuePlanConverts(i: IssueInput, now: int)
    requires ValidIssueInput(i, now)
    ensures ConvertsTo(MessagesOf(IssueOps(i)), IssueOps(i), now)
  {
    hide ConvertsTo, NonBlank, Blank;
    MessagesConvert(IssueOps(i), now);
  }

  /**
   * An ISSUE plan is built exactly from a valid input; until it expires it converts to the intended commands, which
   * pass validation.
   */
  method IssueTradeInstance(i: IssueInput, now: int) returns (r: Result<SettlementPlan>)
    ensures r.Ok? <==> ValidIssueInput(i, now)
    ensures r.Ok? ==>
              && r.value.intent == Issue && r.value.key == i.key && r.value.actor == i.issuer
              && r.value.externalId == i.externalId
              && (forall later :: (i.expiresAt.Some? ==> later < i.expiresAt.value) ==>
                  ConvertsTo(r.value.operations, IssueOps(i), later))
              && ValidateIssue(i.issuer, IssueOps(i)).Ok?
  {
    hide ConvertsTo;
    if !ValidIssueInput(i, now) { return Err(InvalidArgument); }
    var tradeId := i.tradeId;
    if tradeId.None? {
      tradeId := Some(DeterministicId(i.key, TradeInstance).value);
    }
    var escrowId := i.escrowId;
    if escrowId.None? {
      escrowId := Some(DeterministicId(i.key, ItemStackEscrow).value);
    }
    var ops := [
      WorkOperation(CreateTradeKind,
                    Some(CreateTradePayload(tradeId, Sell, Some(Named(Open)), i.issuer, i.itemType, i.station,
                                            i.quantity, i.price, i.expiresAt))),
      WorkOperation(StackToEscrowKind, Some(StackToEscrowPayload(Some(i.stack), escrowId, tradeId, i.quantity)))];
    assert ops == MessagesOf(IssueOps(i));
    forall later | i.expiresAt.Some? ==> later < i.expiresAt.value
      ensures ConvertsTo(ops, IssueOps(i), later)
    {
      IssuePlanConverts(i, later);
    }
    return Ok(SettlementPlan(Issue, i.key, i.externalId, i.issuer, ops));
  }

  /** The batch a worker executes for a plan: the plan's commands under its key, actor and intent. */
  function BatchOf(intent: Intent, key: string, externalId: string, actor: int, commands: seq<Command>,
                   request: Uuid): Batch {
    Batch(intent, key, None, if Blank(externalId) then None else Some(externalId),
          if actor == 0 then None else Some(actor), commands, Some(request))
  }
}
