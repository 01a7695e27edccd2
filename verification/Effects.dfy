/**
 * The effect of each successful command, stated as a relation between the tables before and
 * after: which guards held and which rows changed. Later proofs use these relations only.
 */
module Effects {
  import opened Prelude
  import opened MapSums
  import opened Tables
  import opened Operations

  /** One stack row rewritten, with its ledger row appended. */
  ghost predicate StackPut(b: Tables, b1: Tables, id: Uuid, quantity: int, state: StackState, kind: EntryKind,
                           step: StepId) {
    && id in b.stacks
    && quantity >= 0
    && StackChecksumValid(id, b.stacks[id])
    && var s, row := b.stacks[id], StackRowAfter(id, b.stacks[id], quantity, state);
    && FitsI64(row.version)
    && b1.stacks == b.stacks[id := row]
    && ExtendsLedger(RowsOf(b.stackLedger, id), StackEntryFor(s, row, kind, step))
    && b1.stackLedger == b.stackLedger[id := RowsOf(b.stackLedger, id)
                                             + [MakeRecord(RowsOf(b.stackLedger, id),
                                                           StackEntryFor(s, row, kind, step))]]
  }

  /** One wallet row rewritten, with its ledger row appended. */
  ghost predicate WalletPut(b: Tables, b1: Tables, id: Uuid, amount: int, kind: EntryKind, step: StepId) {
    && id in b.wallets
    && amount >= 0
    && WalletChecksumValid(id, b.wallets[id])
    && var w, row := b.wallets[id], WalletRowAfter(id, b.wallets[id], amount);
    && FitsI64(row.version)
    && b1.wallets == b.wallets[id := row]
    && b1.walletLedger == b.walletLedger[id := RowsOf(b.walletLedger, id) + [WalletEntryFor(w, row, kind, step)]]
  }

  predicate SameIsk(b: Tables, b1: Tables) {
    b1.wallets == b.wallets && b1.walletEscrows == b.walletEscrows && b1.walletLedger == b.walletLedger
  }

  predicate SameItems(b: Tables, b1: Tables) {
    b1.stacks == b.stacks && b1.stackEscrows == b.stackEscrows && b1.stackLedger == b.stackLedger
  }

  predicate SameTrades(b: Tables, b1: Tables) {
    b1.trades == b.trades && b1.stateChanges == b.stateChanges
  }

  predicate IsLive(b: Tables, trade: Uuid, now: int) {
    trade in b.trades && b.trades[trade].state.Open? && !Expired(b.trades[trade], now)
  }

  predicate TradeCreated(b: Tables, b1: Tables, c: Command, id: Uuid, now: int)
    requires c.CreateTradeRow?
  {
    && id !in b.trades && c.total > 0 && c.price > 0
    && (c.expiresAt.Some? ==> now < c.expiresAt.value)
    && SameIsk(b, b1) && SameItems(b, b1) && b1.stateChanges == b.stateChanges
    && b1.trades == b.trades[id := Trade(Open, c.issuer, c.itemType, c.station, c.total, c.total, c.price, c.expiresAt)]
  }

  ghost predicate TradeClosed(b: Tables, b1: Tables, c: Command, now: int)
    requires c.ModifyTradeState?
  {
    && c.trade in b.trades && b.trades[c.trade].state.Open?
    && c.toState.Named? && !c.toState.state.Open?
    && (c.toState.state.Completed? ==>
        && !Expired(b.trades[c.trade], now)
        && Sum(b.stackEscrows, ActiveItems(c.trade)) <= 0
        && Sum(b.walletEscrows, ActiveIsk(c.trade)) <= 0)
    && SameIsk(b, b1) && SameItems(b, b1)
    && b1.trades == b.trades[c.trade := b.trades[c.trade].(state := c.toState.state)]
  }

  /** The change of state is appended to the log of state changes. */
  predicate ChangeLogged(b: Tables, b1: Tables, c: Command, step: StepId)
    requires c.ModifyTradeState?
  {
    && c.trade in b.trades && c.toState.Named?
    && b1.stateChanges == b.stateChanges
       + [StateChange(step, c.trade, b.trades[c.trade].state, c.toState.state, c.changeKind, c.service)]
  }

  predicate StackCreated(b: Tables, b1: Tables, c: Command, id: Uuid, step: StepId)
    requires c.CreateEmptyStack?
  {
    && id !in b.stacks
    && SameIsk(b, b1) && SameTrades(b, b1) && b1.stackEscrows == b.stackEscrows
    && var row := NewStackRow(id, c.owner, c.itemType, c.station);
    && b1.stacks == b.stacks[id := row]
    && ExtendsLedger(RowsOf(b.stackLedger, id), CreationEntry(row, step))
    && b1.stackLedger == b.stackLedger[id := RowsOf(b.stackLedger, id)
                                             + [MakeRecord(RowsOf(b.stackLedger, id), CreationEntry(row, step))]]
  }

  /** `quantity` units go from a stack of the trade's issuer into escrow `id` of the trade. */
  ghost predicate ItemsEscrowed(b: Tables, b1: Tables, c: Command, id: Uuid, now: int, step: StepId)
    requires c.StackToEscrow?
  {
    && c.quantity > 0
    && IsLive(b, c.trade, now)
    && c.source in b.stacks
    && var s := b.stacks[c.source];
    && s.state.StackActive? && s.owner == b.trades[c.trade].issuer && s.quantity >= c.quantity
    && SameIsk(b, b1) && SameTrades(b, b1)
    && StackPut(b, b1, c.source, s.quantity - c.quantity, StackActive, TransferToEscrow, step)
    && if id in b.stackEscrows then
         var e := b.stackEscrows[id];
         && !e.released && e.trade == c.trade && e.owner == s.owner && e.itemType == s.itemType
         && e.station == s.station
         && FitsI64(e.quantity + c.quantity)
         && b1.stackEscrows == b.stackEscrows[id := e.(quantity := e.quantity + c.quantity)]
       else
         && !HasActiveEscrow(b, c.trade)
         && b1.stackEscrows == b.stackEscrows[id := StackEscrow(c.trade, s.owner, c.source, s.itemType, s.station,
                                                                c.quantity, false)]
  }

  /** `q` units go from escrow `e` to stack `d`, and the trade's remainder follows the escrow. */
  ghost predicate ItemsReleased(b: Tables, b1: Tables, e: Uuid, d: Uuid, q: int, rule: OwnerRule, now: int,
                                step: StepId) {
    && q > 0
    && e in b.stackEscrows && d in b.stacks
    && var es, ds := b.stackEscrows[e], b.stacks[d];
    && !es.released && q <= es.quantity
    && ds.state.StackActive? && ds.itemType == es.itemType && ds.station == es.station
    && OwnerRuleHolds(rule, es.owner, ds.owner)
    && (rule.NewOwner? ==> IsLive(b, es.trade, now)
                           && Sum(b.walletEscrows, ActiveIsk(es.trade)) == b.trades[es.trade].price * q)
    && FitsI64(ds.quantity + q)
    && SameIsk(b, b1) && b1.stateChanges == b.stateChanges
    && StackPut(b, b1, d, ds.quantity + q, StackActive, ReleaseKind(rule), step)
    && b1.stackEscrows == b.stackEscrows[e := es.(quantity := es.quantity - q, released := es.quantity == q)]
    && es.trade in b.trades && b.trades[es.trade].remaining == es.quantity
    && b1.trades == b.trades[es.trade := b.trades[es.trade].(remaining := es.quantity - q)]
  }

  ghost predicate StacksMerged(b: Tables, mid: Tables, b1: Tables, c: Command, step: StepId)
    requires c.MergeStacks?
  {
    && c.source != c.destination && c.source in b.stacks && c.destination in b.stacks
    && var s, d := b.stacks[c.source], b.stacks[c.destination];
    && s.owner == d.owner && s.itemType == d.itemType && s.station == d.station
    && FitsI64(d.quantity + s.quantity)
    && SameIsk(b, b1) && SameTrades(b, b1) && b1.stackEscrows == b.stackEscrows
    && StackPut(b, mid, c.destination, d.quantity + s.quantity, StackActive, MergeIn, step)
    && StackPut(mid, b1, c.source, 0, StackMerged, MergeOut, step)
  }

  predicate WalletEscrowCreated(b: Tables, b1: Tables, c: Command, id: Uuid)
    requires c.CreateEmptyWalletEscrow?
  {
    && id !in b.walletEscrows && c.trade in b.trades
    && SameItems(b, b1) && SameTrades(b, b1) && b1.wallets == b.wallets && b1.walletLedger == b.walletLedger
    && b1.walletEscrows == b.walletEscrows[id := WalletEscrow(c.trade, c.owner, c.sourceWallet, 0, false)]
  }

  /** A whole number of units is paid for out of a wallet into wallet escrow `id`. */
  ghost predicate IskEscrowed(b: Tables, b1: Tables, c: Command, id: Uuid, now: int, step: StepId)
    requires c.WalletToEscrow?
  {
    && c.amount > 0
    && c.sourceWallet in b.wallets
    && var w := b.wallets[c.sourceWallet];
    && w.state.WalletActive? && w.amount >= c.amount
    && IsLive(b, c.trade, now)
    && SameItems(b, b1) && SameTrades(b, b1)
    && WalletPut(b, b1, c.sourceWallet, w.amount - c.amount, TransferToEscrow, step)
    && if id in b.walletEscrows then
         var e := b.walletEscrows[id];
         && !e.released && e.trade == c.trade && e.owner == w.owner
         && FitsI64(e.amount + c.amount)
         && b1.walletEscrows == b.walletEscrows[id := e.(amount := e.amount + c.amount)]
       else
         b1.walletEscrows == b.walletEscrows[id := WalletEscrow(c.trade, w.owner, c.sourceWallet, c.amount, false)]
  }

  ghost predicate IskReleased(b: Tables, b1: Tables, e: Uuid, d: Uuid, a: int, rule: OwnerRule, now: int,
                              step: StepId) {
    && a > 0
    && e in b.walletEscrows && d in b.wallets
    && var es, ds := b.walletEscrows[e], b.wallets[d];
    && !es.released && a <= es.amount
    && ds.state.WalletActive? && OwnerRuleHolds(rule, es.owner, ds.owner)
    && (rule.NewOwner? ==> IsLive(b, es.trade, now))
    && FitsI64(ds.amount + a)
    && SameItems(b, b1) && SameTrades(b, b1)
    && WalletPut(b, b1, d, ds.amount + a, ReleaseKind(rule), step)
    && b1.walletEscrows == b.walletEscrows[e := es.(amount := es.amount - a, released := es.amount == a)]
  }

  ghost predicate Merged(b: Tables, b1: Tables, c: Command, step: StepId)
    requires c.MergeStacks?
  {
    exists mid :: StacksMerged(b, mid, b1, c, step)
  }

  ghost predicate Effect(b: Tables, b1: Tables, c: Command, env: StepEnv, step: StepId) {
    match c
    case CreateTradeRow(id, _, _, _, _, _, _, _, _) => TradeCreated(b, b1, c, IdOr(id, env.newId), env.now)
    case ModifyTradeState(_, _, _, _) => TradeClosed(b, b1, c, env.now) && ChangeLogged(b, b1, c, step)
    case CreateEmptyStack(id, _, _, _) => StackCreated(b, b1, c, IdOr(id, env.newId), step)
    case StackToEscrow(_, id, _, _) => ItemsEscrowed(b, b1, c, IdOr(id, env.newId), env.now, step)
    case EscrowToNewOwnerStack(e, d, q) => ItemsReleased(b, b1, e, d, q, NewOwner, env.now, step)
    case EscrowToPreviousOwnerStack(e, d, q) => ItemsReleased(b, b1, e, d, q, PreviousOwner, env.now, step)
    case MergeStacks(_, _) => Merged(b, b1, c, step)
    case CreateEmptyWalletEscrow(id, _, _, _) => WalletEscrowCreated(b, b1, c, IdOr(id, env.newId))
    case WalletToEscrow(_, id, _, _) => IskEscrowed(b, b1, c, IdOr(id, env.newId), env.now, step)
    case EscrowToNewOwnerWallet(e, d, a) => IskReleased(b, b1, e, d, a, NewOwner, env.now, step)
    case EscrowToPreviousOwnerWallet(e, d, a) => IskReleased(b, b1, e, d, a, PreviousOwner, env.now, step)
  }

  lemma PutStackEffect(b: Tables, id: Uuid, quantity: int, state: StackState, kind: EntryKind, step: StepId)
    requires id in b.stacks && PutStack(b, id, quantity, state, kind, step).Ok?
    ensures StackPut(b, PutStack(b, id, quantity, state, kind, step).value, id, quantity, state, kind, step)
  {
  }

  lemma MergeEffect(b: Tables, c: Command, step: StepId)
    requires c.MergeStacks? && Merge(b, c, step).Ok?
    ensures Merged(b, Merge(b, c, step).value.tables, c, step)
  {
    var total := b.stacks[c.destination].quantity + b.stacks[c.source].quantity;
    var mid := PutStack(b, c.destination, total, StackActive, MergeIn, step).value;
    PutStackEffect(b, c.destination, total, StackActive, MergeIn, step);
    PutStackEffect(mid, c.source, 0, StackMerged, MergeOut, step);
    assert StacksMerged(b, mid, Merge(b, c, step).value.tables, c, step);
  }

  lemma EscrowItemsEffect(b: Tables, c: Command, env: StepEnv, step: StepId)
    requires c.StackToEscrow? && EscrowItems(b, c, env, step).Ok?
    ensures ItemsEscrowed(b, EscrowItems(b, c, env, step).value.tables, c, IdOr(c.escrowId, env.newId), env.now, step)
  {
    var after := b.stacks[c.source].quantity - c.quantity;
    PutStackEffect(b, c.source, after, StackActive, TransferToEscrow, step);
  }

  lemma ReleaseItemsEffect(b: Tables, e: Uuid, d: Uuid, q: int, rule: OwnerRule, env: StepEnv, step: StepId)
    requires ReleaseItems(b, e, d, q, rule, env, step).Ok?
    ensures ItemsReleased(b, ReleaseItems(b, e, d, q, rule, env, step).value.tables, e, d, q, rule, env.now, step)
  {
    PutStackEffect(b, d, b.stacks[d].quantity + q, StackActive, ReleaseKind(rule), step);
  }

  lemma EscrowIskEffect(b: Tables, c: Command, env: StepEnv, step: StepId)
    requires c.WalletToEscrow? && EscrowIsk(b, c, env, step).Ok?
    ensures IskEscrowed(b, EscrowIsk(b, c, env, step).value.tables, c, IdOr(c.walletEscrowId, env.newId), env.now, step)
  {
  }

  lemma ReleaseIskEffect(b: Tables, e: Uuid, d: Uuid, a: int, rule: OwnerRule, env: StepEnv, step: StepId)
    requires ReleaseIsk(b, e, d, a, rule, env, step).Ok?
    ensures IskReleased(b, ReleaseIsk(b, e, d, a, rule, env, step).value.tables, e, d, a, rule, env.now, step)
  {
  }

  /** Every successful command has the effect stated for it. */
  lemma ApplyEffect(b: Tables, c: Command, env: StepEnv, step: StepId)
    requires Apply(b, c, env, step).Ok?
    ensures Effect(b, Apply(b, c, env, step).value.tables, c, env, step)
  {
    match c
    case CreateTradeRow(_, _, _, _, _, _, _, _, _) =>
    case ModifyTradeState(_, _, _, _) =>
    case CreateEmptyStack(_, _, _, _) =>
    case StackToEscrow(_, _, _, _) => EscrowItemsEffect(b, c, env, step);
    case EscrowToNewOwnerStack(e, d, q) => ReleaseItemsEffect(b, e, d, q, NewOwner, env, step);
    case EscrowToPreviousOwnerStack(e, d, q) => ReleaseItemsEffect(b, e, d, q, PreviousOwner, env, step);
    case MergeStacks(_, _) => MergeEffect(b, c, step);
    case CreateEmptyWalletEscrow(_, _, _, _) =>
    case WalletToEscrow(_, _, _, _) => EscrowIskEffect(b, c, env, step);
    case EscrowToNewOwnerWallet(e, d, a) => ReleaseIskEffect(b, e, d, a, NewOwner, env, step);
    case EscrowToPreviousOwnerWallet(e, d, a) => ReleaseIskEffect(b, e, d, a, PreviousOwner, env, step);
  }
}
