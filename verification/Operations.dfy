/**
 * What each settlement command does to the business tables, as a function of the tables:
 * either an error, or the new tables and the step output. `SettlementStore` holds the
 * statement-by-statement methods proved against these functions.
 */
module Operations {
  import opened Prelude
  import opened MapSums
  import opened Tables

  datatype Applied = Applied(tables: Tables, output: Output)

  // ---- ledger-backed row updates

  /** The insert trigger on item_stack_ledger: a new row must extend the latest one, or start from GENESIS. */
  predicate ExtendsLedger(records: seq<StackRecord>, entry: StackEntry) {
    match Latest(records)
    case None =>
      entry.sequence == 1 && entry.before == 0 && entry.stateBefore == None && entry.versionBefore == 0
      && entry.checksumBefore == GenesisSum
    case Some(last) =>
      entry.sequence == last.entry.sequence + 1 && entry.before == last.entry.after
      && entry.stateBefore == Some(last.entry.stateAfter) && entry.versionBefore == last.entry.versionAfter
      && entry.checksumBefore == last.entry.checksumAfter
  }

  function LatestHash(records: seq<StackRecord>): LedgerHash {
    match Latest(records)
    case None => GenesisHash
    case Some(last) => last.hash
  }

  function MakeRecord(records: seq<StackRecord>, entry: StackEntry): StackRecord {
    StackRecord(entry, LatestHash(records), Link(LatestHash(records), entry))
  }

  function InsertStackEntry(b: Tables, id: Uuid, entry: StackEntry): Result<Tables> {
    var records := RowsOf(b.stackLedger, id);
    :- Need(ExtendsLedger(records, entry), DatabaseError);
    Ok(b.(stackLedger := b.stackLedger[id := records + [MakeRecord(records, entry)]]))
  }

  function StackRowAfter(id: Uuid, s: Stack, quantity: int, state: StackState): Stack {
    s.(quantity := quantity, state := state, version := s.version + 1,
       checksum := StackSum(id, quantity, s.version + 1), algorithm := Sha256V1)
  }

  function StackEntryFor(s: Stack, row: Stack, kind: EntryKind, step: StepId): StackEntry {
    StackEntry(step, row.version, s.itemType, s.owner, s.station, kind, row.quantity - s.quantity,
               s.quantity, row.quantity, Some(s.state), row.state, s.version, row.version, s.checksum, row.checksum)
  }

  /** update_item_stack followed by insert_item_stack_ledger. */
  function PutStack(b: Tables, id: Uuid, quantity: int, state: StackState, kind: EntryKind,
                    step: StepId): Result<Tables>
    requires id in b.stacks
  {
    var s := b.stacks[id];
    :- Need(StackChecksumValid(id, s), FailedPrecondition);
    var _ :- CheckedAdd(s.version, 1);
    :- Need(quantity >= 0, DatabaseError);
    var row := StackRowAfter(id, s, quantity, state);
    InsertStackEntry(b.(stacks := b.stacks[id := row]), id, StackEntryFor(s, row, kind, step))
  }

  function WalletRowAfter(id: Uuid, w: Wallet, amount: int): Wallet {
    w.(amount := amount, version := w.version + 1,
       checksum := WalletSum(id, amount, w.version + 1), algorithm := Sha256V1)
  }

  function WalletEntryFor(w: Wallet, row: Wallet, kind: EntryKind, step: StepId): WalletEntry {
    WalletEntry(step, w.owner, kind, row.amount - w.amount, w.amount, row.amount,
                w.version, row.version, w.checksum, row.checksum)
  }

  /** update_wallet followed by insert_wallet_ledger. */
  function PutWallet(b: Tables, id: Uuid, amount: int, kind: EntryKind, step: StepId): Result<Tables>
    requires id in b.wallets
  {
    var w := b.wallets[id];
    :- Need(WalletChecksumValid(id, w), FailedPrecondition);
    var _ :- CheckedAdd(w.version, 1);
    :- Need(amount >= 0, DatabaseError);
    var row := WalletRowAfter(id, w, amount);
    Ok(b.(wallets := b.wallets[id := row],
          walletLedger := b.walletLedger[id := RowsOf(b.walletLedger, id) + [WalletEntryFor(w, row, kind, step)]]))
  }

  // ---- guards

  function LiveTrade(b: Tables, trade: Uuid, now: int): Result<Trade> {
    if trade !in b.trades then Err(NotFound)
    else if !b.trades[trade].state.Open? || Expired(b.trades[trade], now) then Err(FailedPrecondition)
    else Ok(b.trades[trade])
  }

  function PaymentMatchesPrice(t: Trade, amount: int): Result<()> {
    if t.price > 0 && amount % t.price == 0 && 0 < amount / t.price <= t.remaining then Ok(())
    else Err(FailedPrecondition)
  }

  ghost function SumQuery<K, V>(m: map<K, V>, weight: V -> int): Result<int> {
    if FitsI64(Sum(m, weight)) then Ok(Sum(m, weight)) else Err(DatabaseError)
  }

  ghost function PaymentMatchesRelease(b: Tables, trade: Uuid, quantity: int, now: int): Result<()> {
    var t :- LiveTrade(b, trade, now);
    var active :- SumQuery(b.walletEscrows, ActiveIsk(trade));
    :- Need(FitsI64(t.price * quantity), FailedPrecondition);
    :- Need(active == t.price * quantity, FailedPrecondition);
    Ok(())
  }

  predicate OwnerRuleHolds(rule: OwnerRule, escrowOwner: int, destinationOwner: int) {
    match rule
    case NewOwner => destinationOwner != escrowOwner
    case PreviousOwner => destinationOwner == escrowOwner
  }

  function ReleaseKind(rule: OwnerRule): EntryKind {
    match rule
    case NewOwner => TransferToNewOwner
    case PreviousOwner => TransferToPreviousOwner
  }

  predicate HasActiveEscrow(b: Tables, trade: Uuid) {
    exists e :: e in b.stackEscrows && b.stackEscrows[e].trade == trade && !b.stackEscrows[e].released
  }

  // ---- the eleven commands

  function CreateTrade(b: Tables, c: Command, env: StepEnv): Result<Applied>
    requires c.CreateTradeRow?
  {
    var id := IdOr(c.tradeId, env.newId);
    :- Need(c.total > 0, InvalidArgument);
    :- Need(c.price > 0, InvalidArgument);
    :- Need(c.tradeKind.Sell?, InvalidArgument);
    :- Need(c.tradeState == Named(Open), InvalidArgument);
    :- Need(c.expiresAt.Some? ==> env.now < c.expiresAt.value, InvalidArgument);
    :- Need(id !in b.trades, DatabaseError);
    var row := Trade(Open, c.issuer, c.itemType, c.station, c.total, c.total, c.price, c.expiresAt);
    Ok(Applied(b.(trades := b.trades[id := row]), [(TradeEntity, id)]))
  }

  ghost function ModifyTrade(b: Tables, c: Command, env: StepEnv, step: StepId): Result<Applied>
    requires c.ModifyTradeState?
  {
    var name := c.toState;
    :- Need(name.Named?, InvalidArgument);
    var to := name.state;
    :- Need(!c.changeKind.OtherChange?, InvalidArgument);
    :- Need(c.trade in b.trades, NotFound);
    var t := b.trades[c.trade];
    :- Need(t.state.Open? && !to.Open?, FailedPrecondition);
    var _ :- CompletionGuard(b, c.trade, to, env.now);
    Ok(Applied(b.(trades := b.trades[c.trade := t.(state := to)],
                  stateChanges := b.stateChanges + [StateChange(step, c.trade, t.state, to, c.changeKind, c.service)]),
               [(TradeEntity, c.trade)]))
  }

  ghost function CompletionGuard(b: Tables, trade: Uuid, to: TradeState, now: int): Result<()>
    requires trade in b.trades
  {
    if !to.Completed? then Ok(()) else
      :- Need(!Expired(b.trades[trade], now), FailedPrecondition);
      var items :- SumQuery(b.stackEscrows, ActiveItems(trade));
      :- Need(items <= 0, FailedPrecondition);
      var isk :- SumQuery(b.walletEscrows, ActiveIsk(trade));
      :- Need(isk <= 0, FailedPrecondition);
      Ok(())
  }

  function NewStackRow(id: Uuid, owner: int, itemType: int, station: int): Stack {
    Stack(owner, itemType, station, 0, StackActive, 1, StackSum(id, 0, 1), Sha256V1)
  }

  function CreationEntry(row: Stack, step: StepId): StackEntry {
    StackEntry(step, row.version, row.itemType, row.owner, row.station, CreateStack, row.quantity, 0, row.quantity,
               None, StackActive, 0, row.version, GenesisSum, row.checksum)
  }

  function CreateStackRow(b: Tables, c: Command, env: StepEnv, step: StepId): Result<Applied>
    requires c.CreateEmptyStack?
  {
    var id := IdOr(c.stackId, env.newId);
    :- Need(id !in b.stacks, DatabaseError);
    var row := NewStackRow(id, c.owner, c.itemType, c.station);
    var b1 :- InsertStackEntry(b.(stacks := b.stacks[id := row]), id, CreationEntry(row, step));
    Ok(Applied(b1, [(StackEntity, id)]))
  }

  /** The escrow to fund already exists: it must be active and made from the same stack for the same trade. */
  function CompatibleEscrow(b: Tables, id: Uuid, trade: Uuid, source: Uuid, s: Stack): Result<()> {
    if id !in b.stackEscrows then Ok(()) else
      var e := b.stackEscrows[id];
      :- Need(!e.released, FailedPrecondition);
      :- Need(e.trade == trade && e.owner == s.owner && e.source == source
              && e.itemType == s.itemType && e.station == s.station, FailedPrecondition);
      Ok(())
  }

  function FundEscrow(b: Tables, id: Uuid, trade: Uuid, source: Uuid, s: Stack, quantity: int): Result<Tables> {
    if id in b.stackEscrows then
      var total :- CheckedAdd(b.stackEscrows[id].quantity, quantity);
      Ok(b.(stackEscrows := b.stackEscrows[id := b.stackEscrows[id].(quantity := total)]))
    else
      :- Need(!HasActiveEscrow(b, trade), DatabaseError);
      Ok(b.(stackEscrows := b.stackEscrows[id := StackEscrow(trade, s.owner, source, s.itemType, s.station, quantity,
                                                             false)]))
  }

  function EscrowItems(b: Tables, c: Command, env: StepEnv, step: StepId): Result<Applied>
    requires c.StackToEscrow?
  {
    var id := IdOr(c.escrowId, env.newId);
    :- Need(c.quantity > 0, InvalidArgument);
    var t :- LiveTrade(b, c.trade, env.now);
    :- Need(c.source in b.stacks, NotFound);
    var s := b.stacks[c.source];
    :- Need(s.state.StackActive?, FailedPrecondition);
    :- Need(s.owner == t.issuer, FailedPrecondition);
    :- Need(s.quantity >= c.quantity, InsufficientQuantity);
    var _ :- CompatibleEscrow(b, id, c.trade, c.source, s);
    var after :- CheckedSub(s.quantity, c.quantity);
    var b1 :- PutStack(b, c.source, after, StackActive, TransferToEscrow, step);
    var b2 :- FundEscrow(b1, id, c.trade, c.source, s, c.quantity);
    Ok(Applied(b2, [(StackEscrowEntity, id)]))
  }

  function SetRemaining(b: Tables, trade: Uuid, before: int, after: int): Result<Tables> {
    if trade !in b.trades || b.trades[trade].remaining != before then Err(FailedPrecondition)
    else if !(0 <= after <= b.trades[trade].total) then Err(DatabaseError)
    else Ok(b.(trades := b.trades[trade := b.trades[trade].(remaining := after)]))
  }

  /** Everything transfer_quantity_from_item_stack_escrow_to_item_stack checks before its first write. */
  ghost function ReleaseGuard(b: Tables, escrow: Uuid, destination: Uuid, quantity: int, rule: OwnerRule,
                              now: int): Result<()> {
    if quantity <= 0 then Err(InvalidArgument)
    else if escrow !in b.stackEscrows then Err(NotFound) else
    var e := b.stackEscrows[escrow];
    :- Need(!e.released, FailedPrecondition);
    :- Need(e.quantity >= quantity, InsufficientQuantity);
    :- Need(destination in b.stacks, NotFound);
    var d := b.stacks[destination];
    :- Need(d.state.StackActive?, FailedPrecondition);
    :- Need(d.itemType == e.itemType && d.station == e.station, FailedPrecondition);
    :- Need(OwnerRuleHolds(rule, e.owner, d.owner), FailedPrecondition);
    if rule.NewOwner? then PaymentMatchesRelease(b, e.trade, quantity, now) else Ok(())
  }

  ghost function ReleaseItems(b: Tables, escrow: Uuid, destination: Uuid, quantity: int, rule: OwnerRule, env: StepEnv,
                              step: StepId): Result<Applied>
  {
    var _ :- ReleaseGuard(b, escrow, destination, quantity, rule, env.now);
    var e, d := b.stackEscrows[escrow], b.stacks[destination];
    var after :- CheckedAdd(d.quantity, quantity);
    var b1 :- PutStack(b, destination, after, StackActive, ReleaseKind(rule), step);
    var left :- CheckedSub(e.quantity, quantity);
    var b2 := b1.(stackEscrows := b1.stackEscrows[escrow := e.(quantity := left, released := left == 0)]);
    var b3 :- SetRemaining(b2, e.trade, e.quantity, left);
    Ok(Applied(b3, [(StackEntity, destination), (StackEscrowEntity, escrow)]))
  }

  function Merge(b: Tables, c: Command, step: StepId): Result<Applied>
    requires c.MergeStacks?
  {
    if c.source == c.destination then Err(InvalidArgument)
    else if c.source !in b.stacks || c.destination !in b.stacks then Err(NotFound) else
    var s, d := b.stacks[c.source], b.stacks[c.destination];
    :- Need(s.state.StackActive?, FailedPrecondition);
    :- Need(d.state.StackActive?, FailedPrecondition);
    :- Need(s.owner == d.owner && s.itemType == d.itemType && s.station == d.station, FailedPrecondition);
    var total :- CheckedAdd(d.quantity, s.quantity);
    var b1 :- PutStack(b, c.destination, total, StackActive, MergeIn, step);
    var b2 :- PutStack(b1, c.source, 0, StackMerged, MergeOut, step);
    Ok(Applied(b2, [(StackEntity, c.destination), (StackEntity, c.source)]))
  }

  function CreateWalletEscrow(b: Tables, c: Command, env: StepEnv): Result<Applied>
    requires c.CreateEmptyWalletEscrow?
  {
    var id := IdOr(c.walletEscrowId, env.newId);
    :- Need(c.sourceWallet in b.wallets, NotFound);
    var w := b.wallets[c.sourceWallet];
    :- Need(w.owner == c.owner, FailedPrecondition);
    :- Need(w.state.WalletActive?, FailedPrecondition);
    :- Need(id !in b.walletEscrows && c.trade in b.trades, DatabaseError);
    Ok(Applied(b.(walletEscrows := b.walletEscrows[id := WalletEscrow(c.trade, c.owner, c.sourceWallet, 0, false)]),
               [(WalletEscrowEntity, id)]))
  }

  function FundWalletEscrow(b: Tables, id: Uuid, trade: Uuid, source: Uuid, owner: int, amount: int): Result<Tables> {
    if id in b.walletEscrows then
      var e := b.walletEscrows[id];
      :- Need(!e.released, FailedPrecondition);
      :- Need(e.trade == trade && e.owner == owner && e.source == source, FailedPrecondition);
      var total :- CheckedAdd(e.amount, amount);
      Ok(b.(walletEscrows := b.walletEscrows[id := e.(amount := total)]))
    else
      Ok(b.(walletEscrows := b.walletEscrows[id := WalletEscrow(trade, owner, source, amount, false)]))
  }

  function EscrowIsk(b: Tables, c: Command, env: StepEnv, step: StepId): Result<Applied>
    requires c.WalletToEscrow?
  {
    var id := IdOr(c.walletEscrowId, env.newId);
    :- Need(c.amount > 0, InvalidArgument);
    :- Need(c.sourceWallet in b.wallets, NotFound);
    var w := b.wallets[c.sourceWallet];
    :- Need(w.state.WalletActive?, FailedPrecondition);
    var t :- LiveTrade(b, c.trade, env.now);
    var _ :- PaymentMatchesPrice(t, c.amount);
    :- Need(w.amount >= c.amount, InsufficientFunds);
    var after :- CheckedSub(w.amount, c.amount);
    var b1 :- PutWallet(b, c.sourceWallet, after, TransferToEscrow, step);
    var b2 :- FundWalletEscrow(b1, id, c.trade, c.sourceWallet, w.owner, c.amount);
    Ok(Applied(b2, [(WalletEscrowEntity, id)]))
  }

  function ReleaseIsk(b: Tables, escrow: Uuid, destination: Uuid, amount: int, rule: OwnerRule, env: StepEnv,
                      step: StepId): Result<Applied>
  {
    if amount <= 0 then Err(InvalidArgument)
    else if escrow !in b.walletEscrows then Err(NotFound) else
    var e := b.walletEscrows[escrow];
    :- Need(!e.released, FailedPrecondition);
    :- Need(e.amount >= amount, InsufficientFunds);
    :- Need(destination in b.wallets, NotFound);
    var d := b.wallets[destination];
    :- Need(d.state.WalletActive?, FailedPrecondition);
    :- Need(OwnerRuleHolds(rule, e.owner, d.owner), FailedPrecondition);
    var _ :- if rule.NewOwner? then LiveTrade(b, e.trade, env.now) else Ok(Trade(Open, 0, 0, 0, 0, 0, 0, None));
    var after :- CheckedAdd(d.amount, amount);
    var b1 :- PutWallet(b, destination, after, ReleaseKind(rule), step);
    var left :- CheckedSub(e.amount, amount);
    Ok(Applied(b1.(walletEscrows := b1.walletEscrows[escrow := e.(amount := left, released := left == 0)]),
               [(WalletEntity, destination), (WalletEscrowEntity, escrow)]))
  }

  /** execute_settlement_command. */
  ghost function Apply(b: Tables, c: Command, env: StepEnv, step: StepId): Result<Applied> {
    match c
    case CreateTradeRow(_, _, _, _, _, _, _, _, _) => CreateTrade(b, c, env)
    case ModifyTradeState(_, _, _, _) => ModifyTrade(b, c, env, step)
    case CreateEmptyStack(_, _, _, _) => CreateStackRow(b, c, env, step)
    case StackToEscrow(_, _, _, _) => EscrowItems(b, c, env, step)
    case EscrowToNewOwnerStack(e, d, q) => ReleaseItems(b, e, d, q, NewOwner, env, step)
    case EscrowToPreviousOwnerStack(e, d, q) => ReleaseItems(b, e, d, q, PreviousOwner, env, step)
    case MergeStacks(_, _) => Merge(b, c, step)
    case CreateEmptyWalletEscrow(_, _, _, _) => CreateWalletEscrow(b, c, env)
    case WalletToEscrow(_, _, _, _) => EscrowIsk(b, c, env, step)
    case EscrowToNewOwnerWallet(e, d, a) => ReleaseIsk(b, e, d, a, NewOwner, env, step)
    case EscrowToPreviousOwnerWallet(e, d, a) => ReleaseIsk(b, e, d, a, PreviousOwner, env, step)
  }
}
