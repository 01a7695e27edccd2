/** Authorization of a plan against the tables, made after validation and before the savepoint. */
module Authorization {
  import opened Prelude
  import opened Tables
  import opened Plans

  /** The first operation of a kind: find_map over the operation list. */
  function First(ops: seq<Command>, wanted: Command -> bool): (c: Option<Command>)
    ensures c.Some? ==> c.value in ops && wanted(c.value)
  {
    if ops == [] then None
    else if wanted(ops[0]) then Some(ops[0])
    else First(ops[1..], wanted)
  }

  lemma {:induction false} FirstAt(ops: seq<Command>, i: nat, wanted: Command -> bool)
    requires i < |ops| && wanted(ops[i])
    requires forall j :: 0 <= j < i ==> !wanted(ops[j])
    ensures First(ops, wanted) == Some(ops[i])
  {
    if i > 0 { FirstAt(ops[1..], i - 1, wanted); }
  }

  function IsDebit(): Command -> bool { (c: Command) => c.WalletToEscrow? }
  function IsDelivery(): Command -> bool { (c: Command) => c.EscrowToNewOwnerStack? }
  function IsCredit(): Command -> bool { (c: Command) => c.EscrowToNewOwnerWallet? }
  function IsStateChange(): Command -> bool { (c: Command) => c.ModifyTradeState? }

  function StackOwner(b: Tables, id: Uuid): Result<int> {
    if id in b.stacks then Ok(b.stacks[id].owner) else Err(NotFound)
  }

  function WalletOwner(b: Tables, id: Uuid): Result<int> {
    if id in b.wallets then Ok(b.wallets[id].owner) else Err(NotFound)
  }

  function AuthorizeIssue(b: Tables, actor: int, ops: seq<Command>): Result<()>
    requires |ops| == 2
  {
    var escrow := ops[1];
    :- Need(escrow.StackToEscrow?, PermissionDenied);
    var owner :- StackOwner(b, escrow.source);
    :- Need(owner == actor, PermissionDenied);
    Ok(())
  }

  predicate CreatesDestination(ops: seq<Command>, destination: Uuid, actor: int) {
    exists i :: 0 <= i < |ops| && ops[i].CreateEmptyStack? && ops[i].stackId == Some(destination)
                && ops[i].owner == actor
  }

  function AuthorizeAccept(b: Tables, actor: int, ops: seq<Command>): Result<()> {
    var debit, delivery, credit := First(ops, IsDebit()), First(ops, IsDelivery()), First(ops, IsCredit());
    :- Need(debit.Some?, PermissionDenied);
    :- Need(delivery.Some?, PermissionDenied);
    :- Need(credit.Some?, PermissionDenied);
    AuthorizeExchange(b, actor, debit.value, delivery.value, credit.value, ops)
  }

  function AuthorizeExchange(b: Tables, actor: int, debit: Command, delivery: Command, credit: Command,
                             ops: seq<Command>): Result<()>
    requires debit.WalletToEscrow? && delivery.EscrowToNewOwnerStack? && credit.EscrowToNewOwnerWallet?
  {
    var payer :- WalletOwner(b, debit.sourceWallet);
    :- Need(payer == actor, PermissionDenied);
    :- Need(debit.trade in b.trades, NotFound);
    var t := b.trades[debit.trade];
    :- Need(t.state.Open?, PermissionDenied);
    :- Need(delivery.escrow in b.stackEscrows, NotFound);
    var e := b.stackEscrows[delivery.escrow];
    :- Need(e.trade == debit.trade, PermissionDenied);
    :- Need(e.owner == t.issuer, PermissionDenied);
    :- Need(!e.released && e.quantity >= delivery.quantity, PermissionDenied);
    :- Need(t.remaining >= delivery.quantity, PermissionDenied);
    :- Need(FitsI64(delivery.quantity * t.price), InvalidArgument);
    :- Need(debit.amount == delivery.quantity * t.price, PermissionDenied);
    var payee :- WalletOwner(b, credit.destinationWallet);
    :- Need(payee == t.issuer, PermissionDenied);
    if CreatesDestination(ops, delivery.destination, actor) then Ok(()) else
      var receiver :- StackOwner(b, delivery.destination);
      :- Need(receiver == actor, PermissionDenied);
      Ok(())
  }

  datatype Returns = Returns(items: nat, isk: nat)

  function CheckReturn(b: Tables, actor: int, trade: Uuid, c: Command): Result<()> {
    match c
    case EscrowToPreviousOwnerStack(escrow, destination, _) =>
      :- Need(escrow in b.stackEscrows, NotFound);
      var e := b.stackEscrows[escrow];
      :- Need(e.trade == trade && e.owner == actor && !e.released, PermissionDenied);
      var owner :- StackOwner(b, destination);
      :- Need(owner == actor, PermissionDenied);
      Ok(())
    case EscrowToPreviousOwnerWallet(escrow, destination, _) =>
      :- Need(escrow in b.walletEscrows, NotFound);
      var e := b.walletEscrows[escrow];
      :- Need(e.trade == trade && !e.released, PermissionDenied);
      var owner :- WalletOwner(b, destination);
      :- Need(owner == e.owner, PermissionDenied);
      Ok(())
    case _ => Ok(())
  }

  /** The counts of item and ISK returns among the first `n` operations, or the first refusal. */
  function CountReturns(b: Tables, actor: int, trade: Uuid, ops: seq<Command>, n: nat): Result<Returns>
    requires n <= |ops|
  {
    if n == 0 then Ok(Returns(0, 0)) else
      var counts :- CountReturns(b, actor, trade, ops, n - 1);
      var _ :- CheckReturn(b, actor, trade, ops[n - 1]);
      Ok(Returns(counts.items + (if ops[n - 1].EscrowToPreviousOwnerStack? then 1 else 0),
                 counts.isk + (if ops[n - 1].EscrowToPreviousOwnerWallet? then 1 else 0)))
  }

  function ActiveStackEscrows(b: Tables, trade: Uuid): set<Uuid> {
    set e | e in b.stackEscrows && b.stackEscrows[e].trade == trade && !b.stackEscrows[e].released
  }

  function ActiveWalletEscrows(b: Tables, trade: Uuid): set<Uuid> {
    set w | w in b.walletEscrows && b.walletEscrows[w].trade == trade && !b.walletEscrows[w].released
  }

  function AuthorizeCancel(b: Tables, actor: int, ops: seq<Command>): Result<()> {
    var state := First(ops, IsStateChange());
    :- Need(state.Some?, PermissionDenied);
    :- Need(state.value.trade in b.trades, NotFound);
    var t := b.trades[state.value.trade];
    :- Need(t.issuer == actor, PermissionDenied);
    :- Need(t.state.Open?, PermissionDenied);
    var counts :- CountReturns(b, actor, state.value.trade, ops, |ops|);
    :- Need(counts.items == |ActiveStackEscrows(b, state.value.trade)|, PermissionDenied);
    :- Need(counts.isk == |ActiveWalletEscrows(b, state.value.trade)|, PermissionDenied);
    Ok(())
  }

  /** The refusals of a prefix are the refusals of the whole list. */
  lemma {:induction false} CountReturnsStuck(b: Tables, actor: int, trade: Uuid, ops: seq<Command>, i: nat, n: nat)
    requires i <= n <= |ops|
    requires CountReturns(b, actor, trade, ops, i).Err?
    ensures CountReturns(b, actor, trade, ops, n) == CountReturns(b, actor, trade, ops, i)
  {
    if i < n { CountReturnsStuck(b, actor, trade, ops, i, n - 1); }
  }

  /** authorize_cancel: one pass over the operations, counting returns, then the comparison with the active rows. */
  method RunAuthorizeCancel(b: Tables, actor: int, ops: seq<Command>) returns (r: Result<()>)
    ensures r == AuthorizeCancel(b, actor, ops)
  {
    var state := First(ops, IsStateChange());
    :- Need(state.Some?, PermissionDenied);
    var trade := state.value.trade;
    :- Need(trade in b.trades, NotFound);
    :- Need(b.trades[trade].issuer == actor, PermissionDenied);
    :- Need(b.trades[trade].state.Open?, PermissionDenied);
    var itemReturns, walletReturns := 0, 0;
    for i := 0 to |ops|
      invariant itemReturns >= 0 && walletReturns >= 0
      invariant CountReturns(b, actor, trade, ops, i) == Ok(Returns(itemReturns, walletReturns))
    {
      var checked := CheckReturn(b, actor, trade, ops[i]);
      if checked.Err? {
        CountReturnsStuck(b, actor, trade, ops, i + 1, |ops|);
        return Err(checked.error);
      }
      match ops[i] {
        case EscrowToPreviousOwnerStack(_, _, _) => itemReturns := itemReturns + 1;
        case EscrowToPreviousOwnerWallet(_, _, _) => walletReturns := walletReturns + 1;
        case _ =>
      }
    }
    :- Need(itemReturns == |ActiveStackEscrows(b, trade)|, PermissionDenied);
    :- Need(walletReturns == |ActiveWalletEscrows(b, trade)|, PermissionDenied);
    return Ok(());
  }

  /** authorize_plan, for a plan that passed validation. */
  function AuthorizePlan(b: Tables, batch: Batch): Result<()>
    requires ValidatePlan(batch).Ok?
  {
    match batch.intent
    case Issue => AuthorizeIssue(b, batch.actor.value, batch.operations)
    case Accept => AuthorizeAccept(b, batch.actor.value, batch.operations)
    case Cancel => AuthorizeCancel(b, batch.actor.value, batch.operations)
  }

  // ---- what a passed authorization establishes about the plan that was read off the operations

  lemma AcceptFirsts(actor: int, ops: seq<Command>)
    requires CheckAccept(actor, ops).Ok?
    ensures var p := ReadAccept(ops);
            First(ops, IsDebit()) == Some(p.debit) && First(ops, IsDelivery()) == Some(p.delivery)
              && First(ops, IsCredit()) == Some(p.credit)
  {
    var i := Lead(ops);
    FirstAt(ops, i, IsDebit());
    FirstAt(ops, i + 1, IsDelivery());
    FirstAt(ops, i + 2, IsCredit());
  }

  lemma CancelFirst(ops: seq<Command>)
    requires CheckCancel(ops).Ok?
    ensures First(ops, IsStateChange()) == Some(ReadCancel(ops).state)
  {
    FirstAt(ops, |ops| - 1, IsStateChange());
  }

  /** A CANCEL's returns are counted when each of them is of an active escrow of the trade. */
  lemma CancelCounts(b: Tables, actor: int, trade: Uuid, ops: seq<Command>)
    requires CheckCancel(ops).Ok?
    ensures var p := ReadCancel(ops);
            var counted := CountReturns(b, actor, trade, ops, |ops|);
            && (counted.Ok? <==> (p.items.Some? ==> CheckReturn(b, actor, trade, p.items.value).Ok?)
                                 && (p.isk.Some? ==> CheckReturn(b, actor, trade, p.isk.value).Ok?))
            && (counted.Ok? ==> counted.value == Returns(if p.items.Some? then 1 else 0, if p.isk.Some? then 1 else 0))
  {
    var counts := (n: nat) requires n <= |ops| => CountReturns(b, actor, trade, ops, n);
    assert counts(0) == Ok(Returns(0, 0));
    if |ops| >= 2 { assert counts(1).Ok? <==> CheckReturn(b, actor, trade, ops[0]).Ok?; }
    if |ops| >= 3 { assert counts(2).Ok? <==> counts(1).Ok? && CheckReturn(b, actor, trade, ops[1]).Ok?; }
  }
}
