/**
 * The business tables of the settlement database, one map per table keyed by primary key,
 * and the commands a settlement batch is made of.
 */
module Tables {
  import opened Prelude

  /** The checksum_algorithm column; the only supported value is sha256-v1. */
  datatype Algorithm = Sha256V1 | OtherAlgorithm(name: string)

  /** SHA-256 digests over domain-separated text are kept as the (injective) text they hash. */
  datatype Checksum =
    | GenesisSum
    | StackSum(id: Uuid, quantity: int, version: int)
    | WalletSum(id: Uuid, amount: int, version: int)
    | ForeignSum(text: string)

  datatype StackState = StackActive | StackLocked | StackDepleted | StackMerged
  datatype WalletState = WalletActive | WalletSuspended | WalletClosed
  datatype TradeState = Open | Cancelled | Completed

  // Text fields of commands: the values the code recognises, and any other text.
  datatype TradeKind = Sell | OtherKind(text: string)
  datatype StateName = Named(state: TradeState) | OtherState(text: string)
  datatype ChangeKind = CancelledByIssuer | AcceptedByBuyer | OtherChange(text: string)

  datatype Stack = Stack(owner: int, itemType: int, station: int, quantity: int, state: StackState, version: int,
                         checksum: Checksum, algorithm: Algorithm)
  datatype StackEscrow = StackEscrow(trade: Uuid, owner: int, source: Uuid, itemType: int, station: int, quantity: int,
                                     released: bool)
  datatype Wallet = Wallet(owner: int, amount: int, state: WalletState, version: int, checksum: Checksum,
                           algorithm: Algorithm)
  datatype WalletEscrow = WalletEscrow(trade: Uuid, owner: int, source: Uuid, amount: int, released: bool)
  datatype Trade = Trade(state: TradeState, issuer: int, itemType: int, station: int, total: int, remaining: int,
                         price: int, expiresAt: Option<int>)

  /** A settlement step is identified by its batch and its index in the batch. */
  datatype StepId = StepId(batch: Uuid, index: nat)

  datatype EntryKind =
    CreateStack | TransferToEscrow | TransferToNewOwner | TransferToPreviousOwner | MergeIn | MergeOut

  datatype WalletEntry = WalletEntry(step: StepId, owner: int, kind: EntryKind, delta: int, before: int, after: int,
                                     versionBefore: int, versionAfter: int, checksumBefore: Checksum,
                                     checksumAfter: Checksum)

  /** A `None` state before is the ledger's ABSENT. */
  datatype StackEntry = StackEntry(step: StepId, sequence: int, itemType: int, owner: int, station: int,
                                   kind: EntryKind, delta: int, before: int, after: int,
                                   stateBefore: Option<StackState>, stateAfter: StackState, versionBefore: int,
                                   versionAfter: int, checksumBefore: Checksum, checksumAfter: Checksum)

  /** The hash chain of a stack ledger, kept as the material it hashes. */
  datatype LedgerHash = GenesisHash | Link(previous: LedgerHash, payload: StackEntry)
  datatype StackRecord = StackRecord(entry: StackEntry, previous: LedgerHash, hash: LedgerHash)

  datatype StateChange = StateChange(step: StepId, trade: Uuid, from: TradeState, to: TradeState, kind: ChangeKind,
                                     service: string)

  /** Ledger rows are grouped by the stack or wallet they belong to, in insertion order. */
  datatype Tables = Tables(
    wallets: map<Uuid, Wallet>,
    walletEscrows: map<Uuid, WalletEscrow>,
    stacks: map<Uuid, Stack>,
    stackEscrows: map<Uuid, StackEscrow>,
    trades: map<Uuid, Trade>,
    walletLedger: map<Uuid, seq<WalletEntry>>,
    stackLedger: map<Uuid, seq<StackRecord>>,
    stateChanges: seq<StateChange>)

  datatype Command =
    | CreateTradeRow(tradeId: Option<Uuid>, tradeKind: TradeKind, tradeState: StateName, issuer: int, itemType: int,
                     station: int, total: int, price: int, expiresAt: Option<int>)
    | ModifyTradeState(trade: Uuid, toState: StateName, changeKind: ChangeKind, service: string)
    | CreateEmptyStack(stackId: Option<Uuid>, owner: int, itemType: int, station: int)
    | StackToEscrow(source: Uuid, escrowId: Option<Uuid>, trade: Uuid, quantity: int)
    | EscrowToNewOwnerStack(escrow: Uuid, destination: Uuid, quantity: int)
    | EscrowToPreviousOwnerStack(escrow: Uuid, destination: Uuid, quantity: int)
    | MergeStacks(source: Uuid, destination: Uuid)
    | CreateEmptyWalletEscrow(walletEscrowId: Option<Uuid>, trade: Uuid, owner: int, sourceWallet: Uuid)
    | WalletToEscrow(sourceWallet: Uuid, walletEscrowId: Option<Uuid>, trade: Uuid, amount: int)
    | EscrowToNewOwnerWallet(walletEscrow: Uuid, destinationWallet: Uuid, amount: int)
    | EscrowToPreviousOwnerWallet(walletEscrow: Uuid, destinationWallet: Uuid, amount: int)

  datatype EntityKind = TradeEntity | StackEntity | StackEscrowEntity | WalletEntity | WalletEscrowEntity
  type Output = seq<(EntityKind, Uuid)>

  /** What a step reads from outside the database: the clock, and a random identifier if it needs one. */
  datatype StepEnv = StepEnv(now: int, newId: Uuid)

  datatype OwnerRule = NewOwner | PreviousOwner

  function RowsOf<T>(ledger: map<Uuid, seq<T>>, id: Uuid): seq<T> {
    if id in ledger then ledger[id] else []
  }

  function IdOr(id: Option<Uuid>, newId: Uuid): Uuid {
    if id.Some? then id.value else newId
  }

  predicate Expired(trade: Trade, now: int) {
    trade.expiresAt.Some? && trade.expiresAt.value <= now
  }

  // Weights used by the SUM queries and by the conservation statements.

  function ActiveItems(trade: Uuid): StackEscrow -> int {
    (e: StackEscrow) => if e.trade == trade && !e.released then e.quantity else 0
  }

  function ActiveIsk(trade: Uuid): WalletEscrow -> int {
    (w: WalletEscrow) => if w.trade == trade && !w.released then w.amount else 0
  }

  /** The row with the greatest sequence number: ORDER BY ledger_sequence DESC LIMIT 1. */
  function Latest(records: seq<StackRecord>): Option<StackRecord> {
    if records == [] then None else
      var last := records[|records| - 1];
      match Latest(records[..|records| - 1])
      case None => Some(last)
      case Some(r) => if last.entry.sequence >= r.entry.sequence then Some(last) else Some(r)
  }

  predicate StackChecksumValid(id: Uuid, s: Stack) {
    s.algorithm == Sha256V1 && s.checksum == StackSum(id, s.quantity, s.version)
  }

  predicate WalletChecksumValid(id: Uuid, w: Wallet) {
    w.algorithm == Sha256V1 && w.checksum == WalletSum(id, w.amount, w.version)
  }
}
