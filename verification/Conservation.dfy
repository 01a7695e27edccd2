/**
 * Conservation of ISK and items, for every command on every database state: holdings move
 * between owners only through a release to a new owner, by exactly the released amount.
 */
module Conservation {
  import opened Prelude
  import opened MapSums
  import opened Tables
  import opened Operations
  import opened Effects

  /** `None` stands for all owners together. */
  predicate Covers(who: Option<int>, owner: int) { who == None || who == Some(owner) }

  function WalletShare(who: Option<int>): Wallet -> int {
    (w: Wallet) => if Covers(who, w.owner) then w.amount else 0
  }
  function WalletEscrowShare(who: Option<int>): WalletEscrow -> int {
    (w: WalletEscrow) => if Covers(who, w.owner) then w.amount else 0
  }
  function StackShare(who: Option<int>, itemType: int, station: int): Stack -> int {
    (s: Stack) => if Covers(who, s.owner) && s.itemType == itemType && s.station == station then s.quantity else 0
  }
  function StackEscrowShare(who: Option<int>, itemType: int, station: int): StackEscrow -> int {
    (e: StackEscrow) => if Covers(who, e.owner) && e.itemType == itemType && e.station == station then e.quantity else 0
  }

  /** ISK in wallets and in wallet escrows. */
  ghost function IskOf(b: Tables, who: Option<int>): int {
    Sum(b.wallets, WalletShare(who)) + Sum(b.walletEscrows, WalletEscrowShare(who))
  }

  /** Units of an item type at a station, in stacks and in item escrows. */
  ghost function ItemsOf(b: Tables, who: Option<int>, itemType: int, station: int): int {
    Sum(b.stacks, StackShare(who, itemType, station)) + Sum(b.stackEscrows, StackEscrowShare(who, itemType, station))
  }

  /** The net ISK a command brings to the owners in `who`. */
  function IskFlow(b: Tables, c: Command, who: Option<int>): int {
    match c
    case EscrowToNewOwnerWallet(e, d, a) =>
      (if d in b.wallets && Covers(who, b.wallets[d].owner) then a else 0)
      - (if e in b.walletEscrows && Covers(who, b.walletEscrows[e].owner) then a else 0)
    case _ => 0
  }

  /** The net units a command brings to the owners in `who`. */
  function ItemFlow(b: Tables, c: Command, who: Option<int>, itemType: int, station: int): int {
    match c
    case EscrowToNewOwnerStack(e, d, q) =>
      if e in b.stackEscrows && b.stackEscrows[e].itemType == itemType && b.stackEscrows[e].station == station then
        (if d in b.stacks && Covers(who, b.stacks[d].owner) then q else 0)
        - (if Covers(who, b.stackEscrows[e].owner) then q else 0)
      else 0
    case _ => 0
  }

  predicate InRange(x: int) { 0 <= x <= MAX_I64 }

  /** Every stored amount is a non-negative 64-bit integer. */
  ghost predicate AmountsInRange(b: Tables) { IskAmountsInRange(b) && ItemAmountsInRange(b) }

  ghost predicate IskAmountsInRange(b: Tables) {
    && (forall w :: w in b.wallets ==> InRange(b.wallets[w].amount))
    && (forall w :: w in b.walletEscrows ==> InRange(b.walletEscrows[w].amount))
  }

  ghost predicate ItemAmountsInRange(b: Tables) {
    && (forall s :: s in b.stacks ==> InRange(b.stacks[s].quantity))
    && (forall e :: e in b.stackEscrows ==> InRange(b.stackEscrows[e].quantity))
  }

  // ---- the change in holdings caused by rewriting one row of a table

  lemma ItemsAfterWrites(b: Tables, b1: Tables, s: Uuid, e: Uuid, who: Option<int>, itemType: int, station: int)
    requires s in b1.stacks && b1.stacks == b.stacks[s := b1.stacks[s]]
    requires e in b1.stackEscrows && b1.stackEscrows == b.stackEscrows[e := b1.stackEscrows[e]]
    ensures ItemsOf(b1, who, itemType, station) == ItemsOf(b, who, itemType, station)
              - WeightAt(b.stacks, s, StackShare(who, itemType, station))
              + StackShare(who, itemType, station)(b1.stacks[s])
              - WeightAt(b.stackEscrows, e, StackEscrowShare(who, itemType, station))
              + StackEscrowShare(who, itemType, station)(b1.stackEscrows[e])
  {
    SumPut(b.stacks, s, b1.stacks[s], StackShare(who, itemType, station));
    SumPut(b.stackEscrows, e, b1.stackEscrows[e], StackEscrowShare(who, itemType, station));
  }

  lemma IskAfterWrites(b: Tables, b1: Tables, w: Uuid, e: Uuid, who: Option<int>)
    requires w in b1.wallets && b1.wallets == b.wallets[w := b1.wallets[w]]
    requires e in b1.walletEscrows && b1.walletEscrows == b.walletEscrows[e := b1.walletEscrows[e]]
    ensures IskOf(b1, who) == IskOf(b, who)
              - WeightAt(b.wallets, w, WalletShare(who)) + WalletShare(who)(b1.wallets[w])
              - WeightAt(b.walletEscrows, e, WalletEscrowShare(who)) + WalletEscrowShare(who)(b1.walletEscrows[e])
  {
    SumPut(b.wallets, w, b1.wallets[w], WalletShare(who));
    SumPut(b.walletEscrows, e, b1.walletEscrows[e], WalletEscrowShare(who));
  }

  lemma MergeKeepsItems(b: Tables, mid: Tables, b1: Tables, c: Command, step: StepId, who: Option<int>, itemType: int,
                        station: int)
    requires c.MergeStacks? && StacksMerged(b, mid, b1, c, step)
    ensures ItemsOf(b1, who, itemType, station) == ItemsOf(b, who, itemType, station)
  {
    SumPut(b.stacks, c.destination, mid.stacks[c.destination], StackShare(who, itemType, station));
    SumPut(mid.stacks, c.source, b1.stacks[c.source], StackShare(who, itemType, station));
  }

  // ---- commands

  lemma EffectIsk(b: Tables, b1: Tables, c: Command, env: StepEnv, step: StepId, who: Option<int>)
    requires Effect(b, b1, c, env, step)
    ensures IskOf(b1, who) == IskOf(b, who) + IskFlow(b, c, who)
  {
    hide Sum, StackPut, ExtendsLedger, MakeRecord;
    match c
    case CreateEmptyWalletEscrow(id, _, _, _) =>
      SumPut(b.walletEscrows, IdOr(id, env.newId), WalletEscrow(c.trade, c.owner, c.sourceWallet, 0, false),
             WalletEscrowShare(who));
    case WalletToEscrow(w, id, _, _) => IskAfterWrites(b, b1, w, IdOr(id, env.newId), who);
    case EscrowToNewOwnerWallet(e, d, a) => IskAfterWrites(b, b1, d, e, who);
    case EscrowToPreviousOwnerWallet(e, d, a) => IskAfterWrites(b, b1, d, e, who);
    case CreateTradeRow(_, _, _, _, _, _, _, _, _) =>
    case ModifyTradeState(_, _, _, _) =>
    case CreateEmptyStack(_, _, _, _) =>
    case StackToEscrow(_, _, _, _) =>
    case EscrowToNewOwnerStack(_, _, _) =>
    case EscrowToPreviousOwnerStack(_, _, _) =>
    case MergeStacks(_, _) =>
  }

  lemma EscrowingKeepsItems(b: Tables, b1: Tables, c: Command, id: Uuid, now: int, step: StepId, who: Option<int>,
                            itemType: int, station: int)
    requires c.StackToEscrow? && ItemsEscrowed(b, b1, c, id, now, step)
    ensures ItemsOf(b1, who, itemType, station) == ItemsOf(b, who, itemType, station)
  {
    hide Sum, ItemsOf, ExtendsLedger, MakeRecord;
    ItemsAfterWrites(b, b1, c.source, id, who, itemType, station);
  }

  lemma ReleaseMovesItems(b: Tables, b1: Tables, e: Uuid, d: Uuid, q: int, rule: OwnerRule, now: int, step: StepId,
                          who: Option<int>, itemType: int, station: int)
    requires ItemsReleased(b, b1, e, d, q, rule, now, step)
    ensures ItemsOf(b1, who, itemType, station) == ItemsOf(b, who, itemType, station) +
            if b.stackEscrows[e].itemType == itemType && b.stackEscrows[e].station == station then
              (if Covers(who, b.stacks[d].owner) then q else 0)
              - (if Covers(who, b.stackEscrows[e].owner) then q else 0)
            else 0
  {
    hide Sum, ItemsOf, ExtendsLedger, MakeRecord;
    ItemsAfterWrites(b, b1, d, e, who, itemType, station);
  }

  lemma CreationKeepsItems(b: Tables, b1: Tables, c: Command, id: Uuid, step: StepId, who: Option<int>, itemType: int,
                           station: int)
    requires c.CreateEmptyStack? && StackCreated(b, b1, c, id, step)
    ensures ItemsOf(b1, who, itemType, station) == ItemsOf(b, who, itemType, station)
  {
    hide Sum, ExtendsLedger, MakeRecord;
    SumPut(b.stacks, id, b1.stacks[id], StackShare(who, itemType, station));
  }

  lemma EffectItems(b: Tables, b1: Tables, c: Command, env: StepEnv, step: StepId, who: Option<int>, itemType: int,
                    station: int)
    requires Effect(b, b1, c, env, step)
    ensures ItemsOf(b1, who, itemType, station) ==
            ItemsOf(b, who, itemType, station) + ItemFlow(b, c, who, itemType, station)
  {
    hide Sum, StackPut, WalletPut, StackCreated, ItemsEscrowed, StacksMerged;
    match c
    case CreateEmptyStack(id, _, _, _) =>
      CreationKeepsItems(b, b1, c, IdOr(id, env.newId), step, who, itemType, station);
    case StackToEscrow(_, id, _, _) =>
      EscrowingKeepsItems(b, b1, c, IdOr(id, env.newId), env.now, step, who, itemType, station);
    case EscrowToNewOwnerStack(e, d, q) =>
      ReleaseMovesItems(b, b1, e, d, q, NewOwner, env.now, step, who, itemType, station);
    case EscrowToPreviousOwnerStack(e, d, q) =>
      ReleaseMovesItems(b, b1, e, d, q, PreviousOwner, env.now, step, who, itemType, station);
    case MergeStacks(_, _) =>
      var mid :| StacksMerged(b, mid, b1, c, step);
      MergeKeepsItems(b, mid, b1, c, step, who, itemType, station);
    case CreateTradeRow(_, _, _, _, _, _, _, _, _) =>
    case ModifyTradeState(_, _, _, _) =>
    case CreateEmptyWalletEscrow(_, _, _, _) =>
    case WalletToEscrow(_, _, _, _) =>
    case EscrowToNewOwnerWallet(_, _, _) =>
    case EscrowToPreviousOwnerWallet(_, _, _) =>
  }

  lemma EffectItemAmounts(b: Tables, b1: Tables, c: Command, env: StepEnv, step: StepId)
    requires ItemAmountsInRange(b) && Effect(b, b1, c, env, step)
    ensures ItemAmountsInRange(b1)
  {
  }

  lemma EffectIskAmounts(b: Tables, b1: Tables, c: Command, env: StepEnv, step: StepId)
    requires IskAmountsInRange(b) && Effect(b, b1, c, env, step)
    ensures IskAmountsInRange(b1)
  {
  }

  /**
   * Every successful command, on every state: the ISK and the items of any owner, or of all owners
   * together, change by the command's flow alone. Over all owners the flow is zero.
   */
  lemma ApplyConserves(b: Tables, c: Command, env: StepEnv, step: StepId, who: Option<int>, itemType: int, station: int)
    requires Apply(b, c, env, step).Ok?
    ensures var b1 := Apply(b, c, env, step).value.tables;
            && IskOf(b1, who) == IskOf(b, who) + IskFlow(b, c, who)
            && ItemsOf(b1, who, itemType, station) ==
               ItemsOf(b, who, itemType, station) + ItemFlow(b, c, who, itemType, station)
            && IskOf(b1, None) == IskOf(b, None)
            && ItemsOf(b1, None, itemType, station) == ItemsOf(b, None, itemType, station)
  {
    var b1 := Apply(b, c, env, step).value.tables;
    ApplyEffect(b, c, env, step);
    EffectIsk(b, b1, c, env, step, who);
    EffectIsk(b, b1, c, env, step, None);
    EffectItems(b, b1, c, env, step, who, itemType, station);
    EffectItems(b, b1, c, env, step, None, itemType, station);
  }
}
