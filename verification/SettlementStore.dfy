/**
 * The settlement commands as they run inside a transaction: row by row, with later checks made
 * after earlier writes. A command that fails may leave such writes behind; the executor's
 * savepoint removes them. Every command is proved against its function in `Operations`.
 */
module SettlementStore {
  import opened Prelude
  import opened MapSums
  import opened Tables
  import opened Operations

  /** The answer and, on success, the tables reached are those of the specification. */
  ghost predicate Answers(r: Result<Output>, after: Tables, spec: Result<Applied>) {
    match r
    case Ok(output) => spec == Ok(Applied(after, output))
    case Err(e) => spec == Err(e)
  }

  class Store {
    var wallets: map<Uuid, Wallet>
    var walletEscrows: map<Uuid, WalletEscrow>
    var stacks: map<Uuid, Stack>
    var stackEscrows: map<Uuid, StackEscrow>
    var trades: map<Uuid, Trade>
    var walletLedger: map<Uuid, seq<WalletEntry>>
    var stackLedger: map<Uuid, seq<StackRecord>>
    var stateChanges: seq<StateChange>

    constructor (b: Tables)
      ensures Contents() == b
    {
      wallets, walletEscrows, stacks, stackEscrows := b.wallets, b.walletEscrows, b.stacks, b.stackEscrows;
      trades, walletLedger, stackLedger, stateChanges := b.trades, b.walletLedger, b.stackLedger, b.stateChanges;
    }

    function Contents(): (b: Tables)
      reads this
    {
      Tables(wallets, walletEscrows, stacks, stackEscrows, trades, walletLedger, stackLedger, stateChanges)
    }

    /** ROLLBACK TO SAVEPOINT. */
    method Restore(b: Tables)
      modifies this
      ensures Contents() == b
    {
      wallets, walletEscrows, stacks, stackEscrows := b.wallets, b.walletEscrows, b.stacks, b.stackEscrows;
      trades, walletLedger, stackLedger, stateChanges := b.trades, b.walletLedger, b.stackLedger, b.stateChanges;
    }

    method InsertStackLedger(id: Uuid, entry: StackEntry) returns (r: Result<()>)
      modifies this`stackLedger
      ensures match r
              case Ok(_) => InsertStackEntry(old(Contents()), id, entry) == Ok(Contents())
              case Err(e) => InsertStackEntry(old(Contents()), id, entry) == Err(e)
    {
      var records := RowsOf(stackLedger, id);
      :- Need(ExtendsLedger(records, entry), DatabaseError);
      stackLedger := stackLedger[id := records + [MakeRecord(records, entry)]];
      return Ok(());
    }

    method UpdateStack(id: Uuid, quantity: int, state: StackState, kind: EntryKind,
                       step: StepId) returns (r: Result<()>)
      requires id in stacks
      modifies this`stacks, this`stackLedger
      ensures match r
              case Ok(_) => PutStack(old(Contents()), id, quantity, state, kind, step) == Ok(Contents())
              case Err(e) => PutStack(old(Contents()), id, quantity, state, kind, step) == Err(e)
    {
      var s := stacks[id];
      :- Need(StackChecksumValid(id, s), FailedPrecondition);
      var version :- CheckedAdd(s.version, 1);
      :- Need(quantity >= 0, DatabaseError);
      stacks := stacks[id := s.(quantity := quantity, state := state, version := version,
                                checksum := StackSum(id, quantity, version), algorithm := Sha256V1)];
      r := InsertStackLedger(id, StackEntryFor(s, stacks[id], kind, step));
    }

    method UpdateWallet(id: Uuid, amount: int, kind: EntryKind, step: StepId) returns (r: Result<()>)
      requires id in wallets
      modifies this`wallets, this`walletLedger
      ensures match r
              case Ok(_) => PutWallet(old(Contents()), id, amount, kind, step) == Ok(Contents())
              case Err(e) => PutWallet(old(Contents()), id, amount, kind, step) == Err(e)
    {
      var w := wallets[id];
      :- Need(WalletChecksumValid(id, w), FailedPrecondition);
      var version :- CheckedAdd(w.version, 1);
      :- Need(amount >= 0, DatabaseError);
      wallets := wallets[id := w.(amount := amount, version := version,
                                  checksum := WalletSum(id, amount, version), algorithm := Sha256V1)];
      walletLedger := walletLedger[id := RowsOf(walletLedger, id) + [WalletEntryFor(w, wallets[id], kind, step)]];
      return Ok(());
    }

    method ActiveItemsOf(trade: Uuid) returns (r: Result<int>)
      ensures r == SumQuery(stackEscrows, ActiveItems(trade))
    {
      var s := Total(stackEscrows, ActiveItems(trade));
      :- Need(FitsI64(s), DatabaseError);
      return Ok(s);
    }

    method ActiveIskOf(trade: Uuid) returns (r: Result<int>)
      ensures r == SumQuery(walletEscrows, ActiveIsk(trade))
    {
      var s := Total(walletEscrows, ActiveIsk(trade));
      :- Need(FitsI64(s), DatabaseError);
      return Ok(s);
    }

    method EnsurePaidFor(trade: Uuid, quantity: int, now: int) returns (r: Result<()>)
      ensures r == PaymentMatchesRelease(Contents(), trade, quantity, now)
    {
      var t :- LiveTrade(Contents(), trade, now);
      var active :- ActiveIskOf(trade);
      :- Need(FitsI64(t.price * quantity), FailedPrecondition);
      :- Need(active == t.price * quantity, FailedPrecondition);
      return Ok(());
    }

    method EnsureCompletable(trade: Uuid, now: int) returns (r: Result<()>)
      requires trade in trades
      ensures r == CompletionGuard(Contents(), trade, Completed, now)
    {
      var t := trades[trade];
      :- Need(!Expired(t, now), FailedPrecondition);
      var items :- ActiveItemsOf(trade);
      :- Need(items <= 0, FailedPrecondition);
      var isk :- ActiveIskOf(trade);
      :- Need(isk <= 0, FailedPrecondition);
      return Ok(());
    }

    method CreateTradeInstance(c: Command, env: StepEnv) returns (r: Result<Output>)
      requires c.CreateTradeRow?
      modifies this`trades
      ensures Answers(r, Contents(), CreateTrade(old(Contents()), c, env))
      ensures forall t :: t in old(trades) ==> t in trades && trades[t] == old(trades)[t]
      ensures r.Ok? ==> |trades| == |old(trades)| + 1
    {
      var id := IdOr(c.tradeId, env.newId);
      :- Need(c.total > 0, InvalidArgument);
      :- Need(c.price > 0, InvalidArgument);
      :- Need(c.tradeKind.Sell?, InvalidArgument);
      :- Need(c.tradeState == Named(Open), InvalidArgument);
      :- Need(c.expiresAt.Some? ==> env.now < c.expiresAt.value, InvalidArgument);
      :- Need(id !in trades, DatabaseError);
      trades := trades[id := Trade(Open, c.issuer, c.itemType, c.station, c.total, c.total, c.price, c.expiresAt)];
      return Ok([(TradeEntity, id)]);
    }

    method ModifyTradeInstance(c: Command, env: StepEnv, step: StepId) returns (r: Result<Output>)
      requires c.ModifyTradeState?
      modifies this`trades, this`stateChanges
      ensures Answers(r, Contents(), ModifyTrade(old(Contents()), c, env, step))
    {
      var name := c.toState;
      :- Need(name.Named?, InvalidArgument);
      var to := name.state;
      :- Need(!c.changeKind.OtherChange?, InvalidArgument);
      :- Need(c.trade in trades, NotFound);
      var t := trades[c.trade];
      :- Need(t.state.Open? && !to.Open?, FailedPrecondition);
      if to.Completed? {
        var _ :- EnsureCompletable(c.trade, env.now);
      }
      trades := trades[c.trade := t.(state := to)];
      stateChanges := stateChanges + [StateChange(step, c.trade, t.state, to, c.changeKind, c.service)];
      return Ok([(TradeEntity, c.trade)]);
    }

    method CreateEmptyItemStack(c: Command, env: StepEnv, step: StepId) returns (r: Result<Output>)
      requires c.CreateEmptyStack?
      modifies this`stacks, this`stackLedger
      ensures Answers(r, Contents(), CreateStackRow(old(Contents()), c, env, step))
    {
      var id := IdOr(c.stackId, env.newId);
      :- Need(id !in stacks, DatabaseError);
      stacks := stacks[id := Stack(c.owner, c.itemType, c.station, 0, StackActive, 1, StackSum(id, 0, 1), Sha256V1)];
      var _ :- InsertStackLedger(id, CreationEntry(stacks[id], step));
      return Ok([(StackEntity, id)]);
    }

    method TransferStackToEscrow(c: Command, env: StepEnv, step: StepId) returns (r: Result<Output>)
      requires c.StackToEscrow?
      modifies this`stacks, this`stackLedger, this`stackEscrows
      ensures Answers(r, Contents(), EscrowItems(old(Contents()), c, env, step))
    {
      var id := IdOr(c.escrowId, env.newId);
      :- Need(c.quantity > 0, InvalidArgument);
      var t :- LiveTrade(Contents(), c.trade, env.now);
      :- Need(c.source in stacks, NotFound);
      var s := stacks[c.source];
      :- Need(s.state.StackActive?, FailedPrecondition);
      :- Need(s.owner == t.issuer, FailedPrecondition);
      :- Need(s.quantity >= c.quantity, InsufficientQuantity);
      var _ :- CompatibleEscrow(Contents(), id, c.trade, c.source, s);
      var after :- CheckedSub(s.quantity, c.quantity);
      var _ :- UpdateStack(c.source, after, StackActive, TransferToEscrow, step);
      if id in stackEscrows {
        var total :- CheckedAdd(stackEscrows[id].quantity, c.quantity);
        stackEscrows := stackEscrows[id := stackEscrows[id].(quantity := total)];
      } else {
        var taken := HasActiveEscrow(Contents(), c.trade);
        :- Need(!taken, DatabaseError);
        stackEscrows := stackEscrows[id := StackEscrow(c.trade, s.owner, c.source, s.itemType, s.station, c.quantity,
                                                       false)];
      }
      return Ok([(StackEscrowEntity, id)]);
    }

    method EnsureReleasable(escrow: Uuid, destination: Uuid, quantity: int, rule: OwnerRule,
                            now: int) returns (r: Result<()>)
      ensures r == ReleaseGuard(Contents(), escrow, destination, quantity, rule, now)
    {
      if quantity <= 0 { return Err(InvalidArgument); }
      :- Need(escrow in stackEscrows, NotFound);
      var e := stackEscrows[escrow];
      :- Need(!e.released, FailedPrecondition);
      :- Need(e.quantity >= quantity, InsufficientQuantity);
      :- Need(destination in stacks, NotFound);
      var d := stacks[destination];
      :- Need(d.state.StackActive?, FailedPrecondition);
      :- Need(d.itemType == e.itemType && d.station == e.station, FailedPrecondition);
      :- Need(OwnerRuleHolds(rule, e.owner, d.owner), FailedPrecondition);
      if rule.NewOwner? {
        r := EnsurePaidFor(e.trade, quantity, now);
        return;
      }
      return Ok(());
    }

    method TransferEscrowToStack(escrow: Uuid, destination: Uuid, quantity: int, rule: OwnerRule, env: StepEnv,
                                 step: StepId) returns (r: Result<Output>)
      modifies this`stacks, this`stackLedger, this`stackEscrows, this`trades
      ensures Answers(r, Contents(), ReleaseItems(old(Contents()), escrow, destination, quantity, rule, env, step))
    {
      var _ :- EnsureReleasable(escrow, destination, quantity, rule, env.now);
      var e, d := stackEscrows[escrow], stacks[destination];
      var after :- CheckedAdd(d.quantity, quantity);
      var _ :- UpdateStack(destination, after, StackActive, ReleaseKind(rule), step);
      var left :- CheckedSub(e.quantity, quantity);
      if left == 0 {
        stackEscrows := stackEscrows[escrow := e.(quantity := 0, released := true)];
      } else {
        stackEscrows := stackEscrows[escrow := e.(quantity := left)];
      }
      :- Need(e.trade in trades && trades[e.trade].remaining == e.quantity, FailedPrecondition);
      :- Need(0 <= left <= trades[e.trade].total, DatabaseError);
      trades := trades[e.trade := trades[e.trade].(remaining := left)];
      return Ok([(StackEntity, destination), (StackEscrowEntity, escrow)]);
    }

    method MergeItemStacks(c: Command, step: StepId) returns (r: Result<Output>)
      requires c.MergeStacks?
      modifies this`stacks, this`stackLedger
      ensures Answers(r, Contents(), Merge(old(Contents()), c, step))
    {
      if c.source == c.destination { return Err(InvalidArgument); }
      :- Need(c.source in stacks, NotFound);
      :- Need(c.destination in stacks, NotFound);
      var s, d := stacks[c.source], stacks[c.destination];
      :- Need(s.state.StackActive?, FailedPrecondition);
      :- Need(d.state.StackActive?, FailedPrecondition);
      :- Need(s.owner == d.owner && s.itemType == d.itemType && s.station == d.station, FailedPrecondition);
      var total :- CheckedAdd(d.quantity, s.quantity);
      var _ :- UpdateStack(c.destination, total, StackActive, MergeIn, step);
      var _ :- UpdateStack(c.source, 0, StackMerged, MergeOut, step);
      return Ok([(StackEntity, c.destination), (StackEntity, c.source)]);
    }

    method CreateWalletEscrowRow(c: Command, env: StepEnv) returns (r: Result<Output>)
      requires c.CreateEmptyWalletEscrow?
      modifies this`walletEscrows
      ensures Answers(r, Contents(), CreateWalletEscrow(old(Contents()), c, env))
      ensures forall w :: w in old(walletEscrows) ==> w in walletEscrows && walletEscrows[w] == old(walletEscrows)[w]
      ensures r.Ok? ==> |walletEscrows| == |old(walletEscrows)| + 1
    {
      var id := IdOr(c.walletEscrowId, env.newId);
      :- Need(c.sourceWallet in wallets, NotFound);
      var w := wallets[c.sourceWallet];
      :- Need(w.owner == c.owner, FailedPrecondition);
      :- Need(w.state.WalletActive?, FailedPrecondition);
      :- Need(id !in walletEscrows && c.trade in trades, DatabaseError);
      walletEscrows := walletEscrows[id := WalletEscrow(c.trade, c.owner, c.sourceWallet, 0, false)];
      return Ok([(WalletEscrowEntity, id)]);
    }

    method TransferWalletToEscrow(c: Command, env: StepEnv, step: StepId) returns (r: Result<Output>)
      requires c.WalletToEscrow?
      modifies this`wallets, this`walletLedger, this`walletEscrows
      ensures Answers(r, Contents(), EscrowIsk(old(Contents()), c, env, step))
    {
      var id := IdOr(c.walletEscrowId, env.newId);
      :- Need(c.amount > 0, InvalidArgument);
      :- Need(c.sourceWallet in wallets, NotFound);
      var w := wallets[c.sourceWallet];
      :- Need(w.state.WalletActive?, FailedPrecondition);
      var t :- LiveTrade(Contents(), c.trade, env.now);
      var _ :- PaymentMatchesPrice(t, c.amount);
      :- Need(w.amount >= c.amount, InsufficientFunds);
      var after :- CheckedSub(w.amount, c.amount);
      var _ :- UpdateWallet(c.sourceWallet, after, TransferToEscrow, step);
      if id in walletEscrows {
        var e := walletEscrows[id];
        :- Need(!e.released, FailedPrecondition);
        :- Need(e.trade == c.trade && e.owner == w.owner && e.source == c.sourceWallet, FailedPrecondition);
        var total :- CheckedAdd(e.amount, c.amount);
        walletEscrows := walletEscrows[id := e.(amount := total)];
      } else {
        walletEscrows := walletEscrows[id := WalletEscrow(c.trade, w.owner, c.sourceWallet, c.amount, false)];
      }
      return Ok([(WalletEscrowEntity, id)]);
    }

    method TransferEscrowToWallet(escrow: Uuid, destination: Uuid, amount: int, rule: OwnerRule, env: StepEnv,
                                  step: StepId) returns (r: Result<Output>)
      modifies this`wallets, this`walletLedger, this`walletEscrows
      ensures Answers(r, Contents(), ReleaseIsk(old(Contents()), escrow, destination, amount, rule, env, step))
    {
      if amount <= 0 { return Err(InvalidArgument); }
      :- Need(escrow in walletEscrows, NotFound);
      var e := walletEscrows[escrow];
      :- Need(!e.released, FailedPrecondition);
      :- Need(e.amount >= amount, InsufficientFunds);
      :- Need(destination in wallets, NotFound);
      var d := wallets[destination];
      :- Need(d.state.WalletActive?, FailedPrecondition);
      :- Need(OwnerRuleHolds(rule, e.owner, d.owner), FailedPrecondition);
      if rule.NewOwner? {
        var _ :- LiveTrade(Contents(), e.trade, env.now);
      }
      var after :- CheckedAdd(d.amount, amount);
      var _ :- UpdateWallet(destination, after, ReleaseKind(rule), step);
      var left :- CheckedSub(e.amount, amount);
      if left == 0 {
        walletEscrows := walletEscrows[escrow := e.(amount := 0, released := true)];
      } else {
        walletEscrows := walletEscrows[escrow := e.(amount := left)];
      }
      return Ok([(WalletEntity, destination), (WalletEscrowEntity, escrow)]);
    }

    method ExecuteCommand(c: Command, env: StepEnv, step: StepId) returns (r: Result<Output>)
      modifies this
      ensures Answers(r, Contents(), Apply(old(Contents()), c, env, step))
    {
      match c
      case CreateTradeRow(_, _, _, _, _, _, _, _, _) => r := CreateTradeInstance(c, env);
      case ModifyTradeState(_, _, _, _) => r := ModifyTradeInstance(c, env, step);
      case CreateEmptyStack(_, _, _, _) => r := CreateEmptyItemStack(c, env, step);
      case StackToEscrow(_, _, _, _) => r := TransferStackToEscrow(c, env, step);
      case EscrowToNewOwnerStack(e, d, q) => r := TransferEscrowToStack(e, d, q, NewOwner, env, step);
      case EscrowToPreviousOwnerStack(e, d, q) => r := TransferEscrowToStack(e, d, q, PreviousOwner, env, step);
      case MergeStacks(_, _) => r := MergeItemStacks(c, step);
      case CreateEmptyWalletEscrow(_, _, _, _) => r := CreateWalletEscrowRow(c, env);
      case WalletToEscrow(_, _, _, _) => r := TransferWalletToEscrow(c, env, step);
      case EscrowToNewOwnerWallet(e, d, a) => r := TransferEscrowToWallet(e, d, a, NewOwner, env, step);
      case EscrowToPreviousOwnerWallet(e, d, a) => r := TransferEscrowToWallet(e, d, a, PreviousOwner, env, step);
    }
  }
}
