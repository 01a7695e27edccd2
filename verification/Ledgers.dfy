/**
 * The append-only ledgers replay to the current rows, and the guards built on them (checksums, the
 * ledger insert trigger, the ledger projection checked at COMMIT) never fire.
 */
module Ledgers {
  import opened Prelude
  import opened MapSums
  import opened Tables
  import opened Operations
  import opened Effects
  import opened Executor

  // ---- chains

  /** Entry `i` continues the entry before it, or the seeded wallet row. */
  ghost predicate WalletContinues(entries: seq<WalletEntry>, seed: Wallet, i: nat)
    requires i < |entries|
  {
    var e := entries[i];
    && e.delta == e.after - e.before && e.versionAfter == e.versionBefore + 1
    && if i == 0 then
         e.before == seed.amount && e.versionBefore == seed.version && e.checksumBefore == seed.checksum
       else
         && e.before == entries[i - 1].after && e.versionBefore == entries[i - 1].versionAfter
         && e.checksumBefore == entries[i - 1].checksumAfter
  }

  /** The entries lead from the seeded wallet row to the current one without a gap. */
  ghost predicate WalletChain(entries: seq<WalletEntry>, seed: Wallet, current: Wallet) {
    && (forall i :: 0 <= i < |entries| ==> WalletContinues(entries, seed, i))
    && current.owner == seed.owner
    && if entries == [] then current == seed else
         var last := entries[|entries| - 1];
         last.after == current.amount && last.versionAfter == current.version && last.checksumAfter == current.checksum
  }

  /** Record `i` continues the record before it, or starts from nothing, and its hash seals all of them. */
  ghost predicate Continues(records: seq<StackRecord>, i: nat)
    requires i < |records|
  {
    var e := records[i].entry;
    && e.sequence == e.versionAfter == i + 1
    && e.versionBefore == i
    && e.delta == e.after - e.before
    && records[i].hash == Link(records[i].previous, e)
    && if i == 0 then
         e.before == 0 && e.stateBefore == None && records[0].previous == GenesisHash
       else
         && e.before == records[i - 1].entry.after
         && e.stateBefore == Some(records[i - 1].entry.stateAfter)
         && e.checksumBefore == records[i - 1].entry.checksumAfter
         && records[i].previous == records[i - 1].hash
  }

  /** The records start from nothing and lead to the current stack row. */
  ghost predicate StackChain(records: seq<StackRecord>, current: Stack) {
    && |records| > 0
    && (forall i :: 0 <= i < |records| ==> Continues(records, i))
    && var last := records[|records| - 1].entry;
    && last.after == current.quantity && last.stateAfter == current.state && last.versionAfter == current.version
    && last.checksumAfter == current.checksum
    && last.owner == current.owner && last.itemType == current.itemType && last.station == current.station
  }

  function WalletDeltas(entries: seq<WalletEntry>): int {
    if entries == [] then 0 else WalletDeltas(entries[..|entries| - 1]) + entries[|entries| - 1].delta
  }

  function StackDeltas(records: seq<StackRecord>): int {
    if records == [] then 0 else StackDeltas(records[..|records| - 1]) + records[|records| - 1].entry.delta
  }

  lemma {:induction false} WalletDeltasTelescope(entries: seq<WalletEntry>, seed: Wallet, current: Wallet, n: nat)
    requires WalletChain(entries, seed, current) && 0 < n <= |entries|
    ensures seed.amount + WalletDeltas(entries[..n]) == entries[n - 1].after
    ensures seed.version + n == entries[n - 1].versionAfter
  {
    assert entries[..n][..n - 1] == entries[..n - 1];
    assert WalletContinues(entries, seed, n - 1);
    if n > 1 { WalletDeltasTelescope(entries, seed, current, n - 1); }
  }

  /** Replaying a wallet's ledger over its seeded row gives the current amount and version. */
  lemma WalletReplays(entries: seq<WalletEntry>, seed: Wallet, current: Wallet)
    requires WalletChain(entries, seed, current)
    ensures seed.amount + WalletDeltas(entries) == current.amount
    ensures seed.version + |entries| == current.version
  {
    if entries != [] {
      WalletDeltasTelescope(entries, seed, current, |entries|);
      assert entries[..|entries|] == entries;
    }
  }

  lemma {:induction false} StackDeltasTelescope(records: seq<StackRecord>, current: Stack, n: nat)
    requires StackChain(records, current) && 0 < n <= |records|
    ensures StackDeltas(records[..n]) == records[n - 1].entry.after
  {
    assert records[..n][..n - 1] == records[..n - 1];
    assert Continues(records, n - 1);
    if n > 1 { StackDeltasTelescope(records, current, n - 1); }
  }

  /** Replaying a stack's ledger from nothing gives the current quantity; its length is the current version. */
  lemma StackReplays(records: seq<StackRecord>, current: Stack)
    requires StackChain(records, current)
    ensures StackDeltas(records) == current.quantity && |records| == current.version
  {
    StackDeltasTelescope(records, current, |records|);
    assert Continues(records, |records| - 1);
    assert records[..|records|] == records;
  }

  /** The "latest" query returns the record appended last. */
  lemma {:induction false} LatestIsLast(records: seq<StackRecord>, n: nat)
    requires 0 < n <= |records|
    requires forall i :: 0 <= i < |records| ==> records[i].entry.sequence == i + 1
    ensures Latest(records[..n]) == Some(records[n - 1])
  {
    assert records[..n][..n - 1] == records[..n - 1];
    if n > 1 { LatestIsLast(records, n - 1); }
  }

  lemma LatestOfChain(records: seq<StackRecord>, current: Stack)
    requires StackChain(records, current)
    ensures Latest(records) == Some(records[|records| - 1])
  {
    assert forall i :: 0 <= i < |records| ==> Continues(records, i) ==> records[i].entry.sequence == i + 1;
    LatestIsLast(records, |records|);
    assert records[..|records|] == records;
  }

  /** The last hash determines the whole ledger: two chains that end in the same hash are the same chain. */
  lemma HashSealsLedger(left: seq<StackRecord>, right: seq<StackRecord>, a: Stack, b: Stack)
    requires StackChain(left, a) && StackChain(right, b)
    requires left[|left| - 1].hash == right[|right| - 1].hash
    ensures left == right
  {
    assert Continues(left, |left| - 1) && Continues(right, |right| - 1);
    HashSealsPrefix(left, right, a, b, |left| - 1);
  }

  lemma {:induction false} HashSealsPrefix(left: seq<StackRecord>, right: seq<StackRecord>, a: Stack, b: Stack, n: nat)
    requires StackChain(left, a) && StackChain(right, b) && n < |left| && n < |right|
    requires left[n].hash == right[n].hash
    ensures left[..n + 1] == right[..n + 1]
  {
    assert Continues(left, n) && Continues(right, n);
    if n > 0 { HashSealsPrefix(left, right, a, b, n - 1); }
    assert left[..n + 1] == left[..n] + [left[n]] && right[..n + 1] == right[..n] + [right[n]];
  }

  // ---- the invariant

  ghost predicate WalletLedgersOk(seeds: map<Uuid, Wallet>, b: Tables) {
    && b.wallets.Keys == seeds.Keys
    && (forall w :: w in b.wallets ==> WalletChecksumValid(w, b.wallets[w]))
    && (forall w :: w in b.wallets ==> WalletChain(RowsOf(b.walletLedger, w), seeds[w], b.wallets[w]))
  }

  ghost predicate StackLedgersOk(b: Tables) {
    && b.stackLedger.Keys <= b.stacks.Keys
    && (forall s :: s in b.stacks ==> StackChecksumValid(s, b.stacks[s]))
    && (forall s :: s in b.stacks ==> StackChain(RowsOf(b.stackLedger, s), b.stacks[s]))
  }

  lemma WalletChainGrows(entries: seq<WalletEntry>, seed: Wallet, id: Uuid, w: Wallet, amount: int, kind: EntryKind,
                         step: StepId)
    requires WalletChain(entries, seed, w)
    ensures var row := WalletRowAfter(id, w, amount);
              WalletChain(entries + [WalletEntryFor(w, row, kind, step)], seed, row)
  {
    var row := WalletRowAfter(id, w, amount);
    var grown := entries + [WalletEntryFor(w, row, kind, step)];
    forall i | 0 <= i < |entries|
      ensures WalletContinues(grown, seed, i)
    {
      assert WalletContinues(entries, seed, i);
    }
  }

  lemma StackChainGrows(records: seq<StackRecord>, id: Uuid, s: Stack, quantity: int, state: StackState,
                        kind: EntryKind, step: StepId)
    requires StackChain(records, s)
    ensures var row := StackRowAfter(id, s, quantity, state);
            StackChain(records + [MakeRecord(records, StackEntryFor(s, row, kind, step))], row)
  {
    LatestOfChain(records, s);
    var row := StackRowAfter(id, s, quantity, state);
    var grown := records + [MakeRecord(records, StackEntryFor(s, row, kind, step))];
    assert Continues(records, |records| - 1);
    forall i | 0 <= i < |records|
      ensures Continues(grown, i)
    {
      assert Continues(records, i);
    }
  }

  lemma WalletPutKeeps(seeds: map<Uuid, Wallet>, b: Tables, b1: Tables, id: Uuid, amount: int, kind: EntryKind,
                       step: StepId)
    requires WalletLedgersOk(seeds, b) && WalletPut(b, b1, id, amount, kind, step)
    ensures WalletLedgersOk(seeds, b1)
  {
    hide WalletChain;
    WalletChainGrows(RowsOf(b.walletLedger, id), seeds[id], id, b.wallets[id], amount, kind, step);
  }

  lemma StackPutKeeps(b: Tables, b1: Tables, id: Uuid, quantity: int, state: StackState, kind: EntryKind, step: StepId)
    requires StackLedgersOk(b) && StackPut(b, b1, id, quantity, state, kind, step)
    ensures StackLedgersOk(b1)
  {
    hide StackChain, ExtendsLedger, MakeRecord, StackEntryFor;
    StackChainGrows(RowsOf(b.stackLedger, id), id, b.stacks[id], quantity, state, kind, step);
  }

  lemma StackCreatedKeeps(b: Tables, b1: Tables, c: Command, id: Uuid, step: StepId)
    requires c.CreateEmptyStack? && StackLedgersOk(b) && StackCreated(b, b1, c, id, step)
    ensures StackLedgersOk(b1)
  {
    assert RowsOf(b.stackLedger, id) == [];
    assert StackChain([MakeRecord([], CreationEntry(b1.stacks[id], step))], b1.stacks[id]);
  }

  lemma EffectKeepsWalletLedgers(seeds: map<Uuid, Wallet>, b: Tables, b1: Tables, c: Command, env: StepEnv,
                                 step: StepId)
    requires WalletLedgersOk(seeds, b) && Effect(b, b1, c, env, step)
    ensures WalletLedgersOk(seeds, b1)
  {
    hide WalletChain, WalletPut, StackPut, Sum;
    match c
    case WalletToEscrow(w, _, _, a) => WalletPutKeeps(seeds, b, b1, w, b.wallets[w].amount - a, TransferToEscrow, step);
    case EscrowToNewOwnerWallet(e, d, a) =>
      WalletPutKeeps(seeds, b, b1, d, b.wallets[d].amount + a, ReleaseKind(NewOwner), step);
    case EscrowToPreviousOwnerWallet(e, d, a) =>
      WalletPutKeeps(seeds, b, b1, d, b.wallets[d].amount + a, ReleaseKind(PreviousOwner), step);
    case CreateTradeRow(_, _, _, _, _, _, _, _, _) =>
    case ModifyTradeState(_, _, _, _) =>
    case CreateEmptyStack(_, _, _, _) =>
    case StackToEscrow(_, _, _, _) =>
    case EscrowToNewOwnerStack(_, _, _) =>
    case EscrowToPreviousOwnerStack(_, _, _) =>
    case MergeStacks(_, _) =>
    case CreateEmptyWalletEscrow(_, _, _, _) =>
  }

  lemma EffectKeepsStackLedgers(b: Tables, b1: Tables, c: Command, env: StepEnv, step: StepId)
    requires StackLedgersOk(b) && Effect(b, b1, c, env, step)
    ensures StackLedgersOk(b1)
  {
    hide StackChain, WalletPut, StackPut, Sum;
    match c
    case CreateEmptyStack(id, _, _, _) => StackCreatedKeeps(b, b1, c, IdOr(id, env.newId), step);
    case StackToEscrow(s, _, _, q) =>
      StackPutKeeps(b, b1, s, b.stacks[s].quantity - q, StackActive, TransferToEscrow, step);
    case EscrowToNewOwnerStack(e, d, q) =>
      StackPutKeeps(b, b1, d, b.stacks[d].quantity + q, StackActive, ReleaseKind(NewOwner), step);
    case EscrowToPreviousOwnerStack(e, d, q) =>
      StackPutKeeps(b, b1, d, b.stacks[d].quantity + q, StackActive, ReleaseKind(PreviousOwner), step);
    case MergeStacks(s, d) =>
      var mid :| StacksMerged(b, mid, b1, c, step);
      StackPutKeeps(b, mid, d, b.stacks[d].quantity + b.stacks[s].quantity, StackActive, MergeIn, step);
      StackPutKeeps(mid, b1, s, 0, StackMerged, MergeOut, step);
    case CreateTradeRow(_, _, _, _, _, _, _, _, _) =>
    case ModifyTradeState(_, _, _, _) =>
    case CreateEmptyWalletEscrow(_, _, _, _) =>
    case WalletToEscrow(_, _, _, _) =>
    case EscrowToNewOwnerWallet(_, _, _) =>
    case EscrowToPreviousOwnerWallet(_, _, _) =>
  }

  // ---- guards that never fire

  /** A stack update is refused only for a negative quantity or an exhausted version counter. */
  lemma StackGuardsNeverFire(b: Tables, id: Uuid, quantity: int, state: StackState, kind: EntryKind, step: StepId)
    requires StackLedgersOk(b) && id in b.stacks
    ensures PutStack(b, id, quantity, state, kind, step).Ok? <==> quantity >= 0 && b.stacks[id].version < MAX_I64
  {
    LatestOfChain(RowsOf(b.stackLedger, id), b.stacks[id]);
    StackReplays(RowsOf(b.stackLedger, id), b.stacks[id]);
    assert Continues(RowsOf(b.stackLedger, id), |RowsOf(b.stackLedger, id)| - 1);
  }

  /** A wallet update is refused only for a negative amount or an exhausted version counter. */
  lemma WalletGuardsNeverFire(seeds: map<Uuid, Wallet>, b: Tables, id: Uuid, amount: int, kind: EntryKind, step: StepId)
    requires WalletLedgersOk(seeds, b) && id in b.wallets && FitsI64(b.wallets[id].version)
    ensures PutWallet(b, id, amount, kind, step).Ok? <==> amount >= 0 && b.wallets[id].version < MAX_I64
  {
  }

  /** The ledger projection checked at COMMIT holds of every stack. */
  lemma StacksProject(b: Tables)
    requires StackLedgersOk(b)
    ensures forall s :: s in b.stacks ==> Projects(b.stacks[s], RowsOf(b.stackLedger, s))
  {
    forall s | s in b.stacks
      ensures Projects(b.stacks[s], RowsOf(b.stackLedger, s))
    {
      LatestOfChain(RowsOf(b.stackLedger, s), b.stacks[s]);
    }
  }
}
