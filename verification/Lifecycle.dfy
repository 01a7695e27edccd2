/**
 * Whole runs of ISSUE, ACCEPT and CANCEL batches: the reachable states, what each committed batch
 * does, how trades evolve, and which batches the deferred constraints refuse.
 */
module Lifecycle {
  import opened Prelude
  import opened MapSums
  import opened Tables
  import opened Operations
  import opened Effects
  import opened Conservation
  import opened Plans
  import opened Authorization
  import opened Executor
  import opened Ledgers
  import opened Runs
  import opened Trades

  /** The stack an escrow was taken from is still there, active, and of the escrow's owner, item type and station. */
  ghost predicate SourcesOk(b: Tables) {
    forall e :: e in b.stackEscrows ==> SourceOk(b, b.stackEscrows[e])
  }

  predicate SourceOk(b: Tables, e: StackEscrow) {
    && e.source in b.stacks
    && var s := b.stacks[e.source];
    && s.state.StackActive? && s.owner == e.owner && s.itemType == e.itemType && s.station == e.station
  }

  ghost predicate Reachable(seeds: map<Uuid, Wallet>, b: Tables) {
    Books(seeds, b) && Sound(b) && SourcesOk(b)
  }

  /** The service entry point accepts no batch without an intent. */
  predicate Served(calls: seq<Call>) {
    forall i :: 0 <= i < |calls| ==> calls[i].batch.intent != Unspecified
  }

  /** Wallets and stacks with their ledgers, and no trade yet. */
  lemma SeedsAreReachable(seeds: map<Uuid, Wallet>, b: Tables)
    requires Books(seeds, b) && b.trades == map[] && b.stackEscrows == map[] && b.walletEscrows == map[]
    ensures Reachable(seeds, b)
  {
  }

  // ---- how rows evolve

  predicate TradeEvolves(x: Trade, y: Trade) {
    && y == x.(state := y.state, remaining := y.remaining)
    && y.remaining <= x.remaining
    && (!x.state.Open? ==> y == x)
  }

  predicate EscrowEvolves(x: StackEscrow, y: StackEscrow) {
    && y == x.(quantity := y.quantity, released := y.released)
    && y.quantity <= x.quantity
    && (x.released ==> y == x)
  }

  /** A stack keeps its owner, item type and station, and stays active. */
  predicate StackEvolves(x: Stack, y: Stack) {
    && y.owner == x.owner && y.itemType == x.itemType && y.station == x.station
    && (x.state.StackActive? ==> y.state.StackActive?)
  }

  ghost predicate StacksEvolve(before: map<Uuid, Stack>, after: map<Uuid, Stack>) {
    forall k :: k in before ==> k in after && StackEvolves(before[k], after[k])
  }

  /**
   * No trade, escrow or stack disappears, closed trades and released escrows are frozen, and quantities on offer only
   * fall.
   */
  ghost predicate Evolves(b: Tables, b1: Tables) {
    && (forall t :: t in b.trades ==> t in b1.trades && TradeEvolves(b.trades[t], b1.trades[t]))
    && (forall e :: e in b.stackEscrows ==>
        e in b1.stackEscrows && EscrowEvolves(b.stackEscrows[e], b1.stackEscrows[e]))
    && StacksEvolve(b.stacks, b1.stacks)
  }

  lemma DrainEvolves(b: Tables, b1: Tables, t: Uuid, e: Uuid, q: int, state: TradeState)
    requires Drained(b, b1, t, e, q, state) && b.trades[t].state.Open? && !b.stackEscrows[e].released
    requires StacksEvolve(b.stacks, b1.stacks)
    ensures Evolves(b, b1)
  {
    hide StacksEvolve;
  }

  lemma ReceivedEvolves(b: Tables, base: map<Uuid, Stack>, after: map<Uuid, Stack>, es: StackEscrow, d: Uuid, q: int,
                        owner: int)
    requires Received(base, after, es, d, q, owner) && forall k :: k in b.stacks ==> k in base && base[k] == b.stacks[k]
    ensures StacksEvolve(b.stacks, after)
  {
  }

  /** Escrows that evolve keep their sources, as their stacks do. */
  lemma EvolvesKeepsSources(b: Tables, b1: Tables)
    requires SourcesOk(b) && Evolves(b, b1)
    requires forall e :: e in b1.stackEscrows && e !in b.stackEscrows ==> SourceOk(b1, b1.stackEscrows[e])
    ensures SourcesOk(b1)
  {
    forall e | e in b1.stackEscrows
      ensures SourceOk(b1, b1.stackEscrows[e])
    {
      if e in b.stackEscrows {
        assert SourceOk(b, b.stackEscrows[e]) && EscrowEvolves(b.stackEscrows[e], b1.stackEscrows[e]);
      }
    }
  }

  // ---- committed batches

  /** What a batch that ran to its end in a reachable state did, by intent; `b1` is the state its steps produced. */
  ghost predicate PlanDone(b: Tables, b1: Tables, batch: Batch, newId: Uuid)
    requires batch.intent != Unspecified && ValidatePlan(batch).Ok?
  {
    var actor, ops := batch.actor.value, batch.operations;
    match batch.intent
    case Issue => exists e :: Issued(b, b1, ops[0], ops[1], e)
    case Accept =>
      var p := ReadAccept(ops);
      && ExchangeAllowed(b, actor, p)
      && Paid(b, b1, actor, p) && Delivered(b, b1, actor, p, CreatedId(p, newId))
      && (p.completion.Some? ==> b.trades[p.debit.trade].remaining == p.delivery.quantity)
    case Cancel =>
      var p := ReadCancel(ops);
      && CancelAllowed(b, actor, p) && SameIsk(b, b1)
      && if p.items.Some? then
           var c := p.items.value;
           && Drained(b, b1, p.state.trade, c.escrow, c.quantity, Cancelled)
           && Received(b.stacks, b1.stacks, b.stackEscrows[c.escrow], c.destination, c.quantity, actor)
         else
           SameItems(b, b1) && b1.trades == b.trades[p.state.trade := b.trades[p.state.trade].(state := Cancelled)]
  }

  /** The fresh identifier drawn for the first step of a call. */
  function FirstNewId(env: BatchEnv): Uuid { if env.steps == [] then env.batch else env.steps[0].newId }

  lemma FinishedPlan(db: Database, batch: Batch, env: BatchEnv)
    requires |env.steps| == |batch.operations| && batch.intent != Unspecified && Sound(db.tables)
    requires Admit(db.audit, batch).Start? && Prepare(db, batch, env).Ok? && RunAll(db, batch, env).Finished?
    ensures PlanDone(db.tables, RunAll(db, batch, env).tables, batch, FirstNewId(env))
  {
    hide Sound, ExchangeAllowed, CancelAllowed, Issued, Paid, Delivered, AuthorizeAccept, AuthorizeCancel, Run, Effect;
    var b, ops, actor := db.tables, batch.operations, batch.actor.value;
    assert ValidatePlan(batch).Ok? && AuthorizePlan(b, batch).Ok?;
    var states := RunTrace(b, ops, env.steps, env.batch, |ops|);
    assert Trace(states, ops, env.steps, env.batch);
    match batch.intent
    case Issue =>
      var e := IssueEffect(states, actor, ops, env.steps, env.batch);
    case Accept =>
      AcceptAuthorized(b, actor, ops);
      AcceptEffect(states, actor, ops, env.steps, env.batch);
    case Cancel =>
      CancelAuthorized(b, actor, ops);
      CancelEffect(states, actor, ops, env.steps, env.batch);
  }

  /** Whether a CANCEL plan gives back the whole of the escrow it returns. */
  predicate ReturnsAll(b: Tables, batch: Batch)
    requires batch.intent == Cancel ==> HasCancelCore(batch.operations)
  {
    batch.intent == Cancel ==>
      var items := ReadCancel(batch.operations).items;
      items.Some? && items.value.EscrowToPreviousOwnerStack? && items.value.escrow in b.stackEscrows ==>
        items.value.quantity == b.stackEscrows[items.value.escrow].quantity
  }

  /** The deferred constraints accept every finished plan except a CANCEL that returns less than its escrow holds. */
  lemma FinishedPlanCommits(b: Tables, b1: Tables, batch: Batch, newId: Uuid)
    requires batch.intent != Unspecified && ValidatePlan(batch).Ok?
    requires Sound(b) && SourcesOk(b) && StackLedgersOk(b1) && PlanDone(b, b1, batch, newId)
    ensures CommitOk(b1) <==> ReturnsAll(b, batch)
    ensures CommitOk(b1) ==> Sound(b1)
    ensures Evolves(b, b1) && SourcesOk(b1)
  {
    hide Sound, StackLedgersOk, CommitOk, ExchangeAllowed, CancelAllowed, Paid, Received, Evolves, SourcesOk, Issued,
         Drained;
    var actor, ops := batch.actor.value, batch.operations;
    match batch.intent
    case Issue =>
      var e :| Issued(b, b1, ops[0], ops[1], e);
      IssueKeepsSound(b, b1, ops[0], ops[1], e);
      IssuedEvolves(b, b1, ops[0], ops[1], e);
      SoundCommits(b1);
    case Accept =>
      var p := ReadAccept(ops);
      AllowedParts(b, actor, p);
      AcceptKeepsSound(b, b1, actor, p, CreatedId(p, newId));
      DeliveredEvolves(b, b1, actor, p, CreatedId(p, newId));
      SoundCommits(b1);
    case Cancel =>
      CancelledEvolves(b, b1, actor, ReadCancel(ops));
      CancelCommits(b, b1, actor, ReadCancel(ops));
  }

  lemma AllowedParts(b: Tables, actor: int, p: AcceptPlan)
    requires AcceptPlanOk(actor, p) && ExchangeAllowed(b, actor, p)
    ensures p.debit.trade in b.trades && b.trades[p.debit.trade].state.Open?
    ensures p.delivery.escrow in b.stackEscrows && !b.stackEscrows[p.delivery.escrow].released
  {
  }

  lemma IssuedEvolves(b: Tables, b1: Tables, create: Command, fund: Command, e: Uuid)
    requires create.CreateTradeRow? && fund.StackToEscrow? && SourcesOk(b) && Issued(b, b1, create, fund, e)
    ensures Evolves(b, b1) && SourcesOk(b1)
  {
    hide SourcesOk;
    EvolvesKeepsSources(b, b1);
  }

  lemma DeliveredEvolves(b: Tables, b1: Tables, actor: int, p: AcceptPlan, created: Uuid)
    requires AcceptPlanOk(actor, p) && SourcesOk(b) && Delivered(b, b1, actor, p, created)
    requires b.trades[p.debit.trade].state.Open? && !b.stackEscrows[p.delivery.escrow].released
    ensures Evolves(b, b1) && SourcesOk(b1)
  {
    hide SourcesOk, SourceOk, Received, StacksEvolve;
    var e := p.delivery.escrow;
    ReceivedEvolves(b, StacksWith(b, p, created), b1.stacks, b.stackEscrows[e], p.delivery.destination,
                    p.delivery.quantity, actor);
    DrainEvolves(b, b1, p.debit.trade, e, p.delivery.quantity, if p.completion.Some? then Completed else Open);
    EvolvesKeepsSources(b, b1);
  }

  lemma CancelledEvolves(b: Tables, b1: Tables, actor: int, p: CancelPlan)
    requires CancelPlanOk(p) && Sound(b) && SourcesOk(b) && CancelAllowed(b, actor, p)
    requires if p.items.Some? then
               var c := p.items.value;
               && Drained(b, b1, p.state.trade, c.escrow, c.quantity, Cancelled)
               && Received(b.stacks, b1.stacks, b.stackEscrows[c.escrow], c.destination, c.quantity, actor)
             else
               && SameItems(b, b1)
               && b1.trades == b.trades[p.state.trade := b.trades[p.state.trade].(state := Cancelled)]
    ensures p.state.trade in b.trades && (p.items.Some? ==> p.items.value.escrow in b.stackEscrows)
    ensures Evolves(b, b1) && SourcesOk(b1)
  {
    hide SourcesOk, SourceOk, Received, HasEscrow, TradeSound;
    if p.items.Some? {
      var c := p.items.value;
      assert EscrowSound(b, b.stackEscrows[c.escrow]);
      ReceivedEvolves(b, b.stacks, b1.stacks, b.stackEscrows[c.escrow], c.destination, c.quantity, actor);
      DrainEvolves(b, b1, p.state.trade, c.escrow, c.quantity, Cancelled);
    }
    EvolvesKeepsSources(b, b1);
  }

  /** A committed ISSUE, with the escrow it created. */
  lemma CommittedIssue(seeds: map<Uuid, Wallet>, db: Database, batch: Batch, env: BatchEnv) returns (e: Uuid)
    requires |env.steps| == |batch.operations| && batch.intent == Issue && Reachable(seeds, db.tables)
    requires Execute(db, batch, env).outcome.Committed?
    ensures ValidatePlan(batch).Ok?
    ensures Issued(db.tables, Execute(db, batch, env).db.tables, batch.operations[0], batch.operations[1], e)
  {
    hide Execute, Reachable, Run, Prepare, Issued, Evolves;
    CallKeepsReachable(seeds, db, batch, env);
    ExecuteTables(db, batch, env);
    e :| Issued(db.tables, Execute(db, batch, env).db.tables, batch.operations[0], batch.operations[1], e);
  }

  // ---- whole runs

  lemma CallKeepsReachable(seeds: map<Uuid, Wallet>, db: Database, batch: Batch, env: BatchEnv)
    requires |env.steps| == |batch.operations| && batch.intent != Unspecified && Reachable(seeds, db.tables)
    ensures Reachable(seeds, Execute(db, batch, env).db.tables)
    ensures Evolves(db.tables, Execute(db, batch, env).db.tables)
    ensures Execute(db, batch, env).outcome.Committed? ==>
              PlanDone(db.tables, Execute(db, batch, env).db.tables, batch, FirstNewId(env))
  {
    hide Execute, Sound, SourcesOk, Evolves, AmountsInRange, WalletLedgersOk, StackLedgersOk, Run, CommitOk, PlanDone,
         Prepare;
    ExecuteTables(db, batch, env);
    if Execute(db, batch, env).outcome.Committed? {
      FinishedPlan(db, batch, env);
      RunKeepsBooks(seeds, db.tables, batch.operations, env.steps, env.batch, |batch.operations|);
      FinishedPlanCommits(db.tables, Execute(db, batch, env).db.tables, batch, FirstNewId(env));
    } else {
      EvolvesReflexive(db.tables);
    }
  }

  lemma EvolvesReflexive(b: Tables)
    ensures Evolves(b, b)
  {
  }

  lemma EvolvesTransitive(a: Tables, b: Tables, c: Tables)
    requires Evolves(a, b) && Evolves(b, c)
    ensures Evolves(a, c)
  {
  }

  /**
   * In every run of ISSUE, ACCEPT and CANCEL batches from a reachable state: each trade has exactly one item
   * escrow, holding its remainder; no wallet escrow holds ISK between batches; trades only go from OPEN to a
   * final state, remainders and escrows never rise, and closed trades never change.
   */
  lemma {:induction false} RunsReachable(seeds: map<Uuid, Wallet>, db: Database, calls: seq<Call>)
    requires Reachable(seeds, db.tables) && Served(calls)
    ensures Reachable(seeds, After(db, calls).tables)
    ensures Evolves(db.tables, After(db, calls).tables)
    decreases |calls|
  {
    hide Execute, Reachable, Evolves;
    EvolvesReflexive(db.tables);
    if calls != [] {
      var last := calls[|calls| - 1];
      var before := After(db, calls[..|calls| - 1]);
      RunsReachable(seeds, db, calls[..|calls| - 1]);
      CallKeepsReachable(seeds, before, last.batch, last.env);
      EvolvesTransitive(db.tables, before.tables, After(db, calls).tables);
    }
  }

  /** A closed trade keeps nothing: its remainder is zero, its escrow is released and empty, and so for ever after. */
  lemma ClosedForEver(seeds: map<Uuid, Wallet>, db: Database, calls: seq<Call>, t: Uuid)
    requires Reachable(seeds, db.tables) && Served(calls) && t in db.tables.trades && !db.tables.trades[t].state.Open?
    ensures var b := After(db, calls).tables;
            && t in b.trades && b.trades[t] == db.tables.trades[t] && b.trades[t].remaining == 0
            && Sum(b.stackEscrows, ActiveItems(t)) == 0 && Sum(b.walletEscrows, ActiveIsk(t)) == 0
            && forall e :: e in b.stackEscrows && b.stackEscrows[e].trade == t ==>
                 b.stackEscrows[e].released && b.stackEscrows[e].quantity == 0
  {
    hide After, Books;
    RunsReachable(seeds, db, calls);
    var b := After(db, calls).tables;
    SoundSums(b, t);
    forall e | e in b.stackEscrows && b.stackEscrows[e].trade == t
      ensures b.stackEscrows[e].released && b.stackEscrows[e].quantity == 0
    {
      assert EscrowSound(b, b.stackEscrows[e]);
    }
  }

  /** The deferred constraints refuse a batch in a reachable state exactly when it is a CANCEL with a partial return. */
  lemma CommitRefusals(seeds: map<Uuid, Wallet>, db: Database, batch: Batch, env: BatchEnv)
    requires |env.steps| == |batch.operations| && batch.intent != Unspecified && Reachable(seeds, db.tables)
    requires Admit(db.audit, batch).Start? && Prepare(db, batch, env).Ok?
    ensures Execute(db, batch, env).outcome.CommitRefused? <==>
            RunAll(db, batch, env).Finished? && !ReturnsAll(db.tables, batch)
    ensures RunAll(db, batch, env).Finished? && ReturnsAll(db.tables, batch) ==>
              Execute(db, batch, env).outcome.Committed?
  {
    hide Sound, SourcesOk, Evolves, AmountsInRange, WalletLedgersOk, StackLedgersOk, Run, CommitOk, PlanDone, Prepare,
         AttemptAudit;
    if RunAll(db, batch, env).Finished? {
      FinishedPlan(db, batch, env);
      RunKeepsBooks(seeds, db.tables, batch.operations, env.steps, env.batch, |batch.operations|);
      FinishedPlanCommits(db.tables, RunAll(db, batch, env).tables, batch, FirstNewId(env));
    }
  }

  // ---- ACCEPT as an exchange

  /** How much of an exchange between `giver` and `taker` reaches `who`. */
  function Share(who: int, giver: int, taker: int, amount: int): int {
    (if who == taker then amount else 0) - (if who == giver then amount else 0)
  }

  lemma PaymentMovesIsk(b: Tables, b1: Tables, actor: int, p: AcceptPlan, who: int)
    requires p.debit.WalletToEscrow? && p.credit.EscrowToNewOwnerWallet? && Paid(b, b1, actor, p)
    requires b.wallets[p.debit.sourceWallet].owner == actor
    requires p.debit.sourceWallet != p.credit.destinationWallet
    ensures IskOf(b1, Some(who)) ==
            IskOf(b, Some(who)) + Share(who, actor, b.wallets[p.credit.destinationWallet].owner, p.debit.amount)
  {
    var payer, payee := p.debit.sourceWallet, p.credit.destinationWallet;
    var share := WalletShare(Some(who));
    var paid := b.wallets[payer := WalletRowAfter(payer, b.wallets[payer], b.wallets[payer].amount - p.debit.amount)];
    SumPut(b.wallets, payer, paid[payer], share);
    SumPut(paid, payee, b1.wallets[payee], share);
    SumPut(b.walletEscrows, p.credit.walletEscrow, b1.walletEscrows[p.credit.walletEscrow],
           WalletEscrowShare(Some(who)));
  }

  lemma DeliveryMovesItems(b: Tables, b1: Tables, actor: int, p: AcceptPlan, created: Uuid, who: int, itemType: int,
                           station: int)
    requires AcceptPlanOk(actor, p) && Delivered(b, b1, actor, p, created)
    ensures var es := b.stackEscrows[p.delivery.escrow];
            ItemsOf(b1, Some(who), itemType, station) == ItemsOf(b, Some(who), itemType, station)
              + if es.itemType == itemType && es.station == station
                then Share(who, es.owner, actor, p.delivery.quantity) else 0
  {
    hide Sum;
    var e, d, share, base := p.delivery.escrow, p.delivery.destination, StackShare(Some(who), itemType, station),
      StacksWith(b, p, created);
    if p.create.Some? { SumPut(b.stacks, created, base[created], share); }
    SumPut(base, d, b1.stacks[d], share);
    SumPut(b.stackEscrows, e, b1.stackEscrows[e], StackEscrowShare(Some(who), itemType, station));
  }

  /**
   * Every committed ACCEPT of `q` units is an exact exchange: the buyer, who is not the issuer, pays `q` times the
   * unit price and receives `q` units; the issuer receives the ISK and gives up the units; nobody else's
   * holdings change.
   */
  lemma AcceptIsExactExchange(db: Database, batch: Batch, env: BatchEnv, who: int, itemType: int, station: int)
    requires |env.steps| == |batch.operations| && batch.intent == Accept && Sound(db.tables)
    requires Execute(db, batch, env).outcome.Committed?
    ensures HasAcceptCore(batch.operations) && batch.actor.Some?
    ensures var p, b, b1 := ReadAccept(batch.operations), db.tables, Execute(db, batch, env).db.tables;
            var t, e, actor, q := p.debit.trade, p.delivery.escrow, batch.actor.value, p.delivery.quantity;
            && t in b.trades && e in b.stackEscrows && b.stackEscrows[e].trade == t && 0 < q <= b.trades[t].remaining
            && var issuer, cost, es := b.trades[t].issuer, q * b.trades[t].price, b.stackEscrows[e];
            && actor != issuer
            && Paid(b, b1, actor, p) && p.debit.amount == cost
            && Delivered(b, b1, actor, p, CreatedId(p, FirstNewId(env)))
            && IskOf(b1, Some(who)) == IskOf(b, Some(who)) + Share(who, actor, issuer, cost)
            && ItemsOf(b1, Some(who), itemType, station) == ItemsOf(b, Some(who), itemType, station)
                 + if es.itemType == itemType && es.station == station then Share(who, issuer, actor, q) else 0
  {
    hide Execute, Run, CommitOk, Sound, Paid, Drained, Received, IskOf, ItemsOf;
    ExecuteTables(db, batch, env);
    FinishedPlan(db, batch, env);
    var b, b1, actor, p := db.tables, Execute(db, batch, env).db.tables, batch.actor.value,
      ReadAccept(batch.operations);
    DeliveryMovesItems(b, b1, actor, p, CreatedId(p, FirstNewId(env)), who, itemType, station);
    PaymentMovesIsk(b, b1, actor, p, who);
    DrainedParts(b, b1, p.debit.trade, p.delivery.escrow, p.delivery.quantity,
                 if p.completion.Some? then Completed else Open);
  }

  lemma DrainedParts(b: Tables, b1: Tables, t: Uuid, e: Uuid, q: int, state: TradeState)
    requires Drained(b, b1, t, e, q, state)
    ensures 0 < q <= b.trades[t].remaining && t in b1.trades
    ensures b1.trades[t] == b.trades[t].(remaining := b.trades[t].remaining - q, state := state)
    ensures forall u :: u in b.trades && u != t ==> u in b1.trades && b1.trades[u] == b.trades[u]
  {
  }

  /**
   * After a committed ACCEPT the trade is OPEN exactly while something remains, unless it took the last units without
   * completing.
   */
  lemma OpenWhileRemaining(db: Database, batch: Batch, env: BatchEnv)
    requires |env.steps| == |batch.operations| && batch.intent == Accept && Sound(db.tables)
    requires Execute(db, batch, env).outcome.Committed?
    ensures HasAcceptCore(batch.operations)
    ensures var p, b, b1 := ReadAccept(batch.operations), db.tables, Execute(db, batch, env).db.tables;
            var t := p.debit.trade;
            && t in b.trades && t in b1.trades
            && ((b1.trades[t].state.Open? <==> b1.trades[t].remaining > 0)
                <==> (p.completion.Some? || p.delivery.quantity < b.trades[t].remaining))
  {
    hide Execute, Run, CommitOk, Sound, PlanDone;
    ExecuteTables(db, batch, env);
    FinishedPlan(db, batch, env);
    BoughtParts(db.tables, Execute(db, batch, env).db.tables, batch, FirstNewId(env));
  }

  /** What a finished ACCEPT does to its trade. */
  lemma BoughtParts(b: Tables, b1: Tables, batch: Batch, newId: Uuid)
    requires batch.intent == Accept && ValidatePlan(batch).Ok? && PlanDone(b, b1, batch, newId)
    ensures var p := ReadAccept(batch.operations);
            var t, q := p.debit.trade, p.delivery.quantity;
            && t in b.trades && 0 < q <= b.trades[t].remaining && t in b1.trades
            && (p.completion.Some? ==> q == b.trades[t].remaining)
            && b1.trades[t] == b.trades[t].(remaining := b.trades[t].remaining - q,
                                            state := if p.completion.Some? then Completed else Open)
            && forall u :: u in b.trades && u != t ==> u in b1.trades && b1.trades[u] == b.trades[u]
  {
    hide Paid, Received, ExchangeAllowed, StacksWith;
  }

  // ---- expiry

  /** Every clock read of a call finds the trade expired. */
  predicate PastExpiry(t: Trade, env: BatchEnv) {
    forall i :: 0 <= i < |env.steps| ==> Expired(t, env.steps[i].now)
  }

  lemma AcceptNeedsLiveTrade(states: seq<Tables>, actor: int, ops: seq<Command>, envs: seq<StepEnv>, batch: Uuid)
    requires CheckAccept(actor, ops).Ok? && Trace(states, ops, envs, batch)
    ensures IsLive(states[0], ReadAccept(ops).debit.trade, envs[Lead(ops)].now)
  {
    var p, b := ReadAccept(ops), states[0];
    hide Trace, StackCreated, ItemsReleased, IskReleased, TradeClosed;
    var m, created, now, step := AcceptTrace(states, actor, ops, envs, batch);
    if p.create.Some? { CreatedKeeps(b, m[0], p.create.value, created, step[0]); }
  }

  /**
   * A batch whose clock is past the expiry of a trade leaves the trade as it is, or cancels it and empties its escrow.
   */
  lemma ExpiredTradeOnlyCancels(seeds: map<Uuid, Wallet>, db: Database, batch: Batch, env: BatchEnv, t: Uuid)
    requires |env.steps| == |batch.operations| && batch.intent != Unspecified && Reachable(seeds, db.tables)
    requires t in db.tables.trades && PastExpiry(db.tables.trades[t], env)
    ensures var r := Execute(db, batch, env);
            && t in r.db.tables.trades
            && (|| r.db.tables.trades[t] == db.tables.trades[t]
                || (batch.intent == Cancel
                    && r.db.tables.trades[t] == db.tables.trades[t].(state := Cancelled, remaining := 0)))
            && (r.outcome.Committed? && batch.intent == Accept && HasAcceptCore(batch.operations) ==>
                  ReadAccept(batch.operations).debit.trade != t)
  {
    hide Execute, Run, CommitOk, Sound, Books, Paid, Received, ExchangeAllowed, Drained, Effect, AuthorizeAccept;
    CallKeepsReachable(seeds, db, batch, env);
    ExecuteTables(db, batch, env);
    var r, b, ops := Execute(db, batch, env), db.tables, batch.operations;
    if r.outcome.Committed? {
      match batch.intent
      case Issue =>
      case Accept =>
        var p := ReadAccept(ops);
        var states := RunTrace(b, ops, env.steps, env.batch, |ops|);
        AcceptNeedsLiveTrade(states, batch.actor.value, ops, env.steps, env.batch);
        DrainedParts(b, r.db.tables, p.debit.trade, p.delivery.escrow, p.delivery.quantity,
                     if p.completion.Some? then Completed else Open);
      case Cancel =>
        var p := ReadCancel(ops);
        if p.items.Some? {
          DrainedParts(b, r.db.tables, p.state.trade, p.items.value.escrow, p.items.value.quantity, Cancelled);
        }
        ClosedIsEmpty(r.db.tables, p.state.trade);
    }
  }

  lemma ClosedIsEmpty(b: Tables, t: Uuid)
    requires Sound(b) && t in b.trades && !b.trades[t].state.Open?
    ensures b.trades[t].remaining == 0
  {
  }

  /** Over any run whose clock is past the expiry of a trade, no unit of it is sold: it is kept or cancelled whole. */
  lemma {:induction false} RunsAfterExpiry(seeds: map<Uuid, Wallet>, db: Database, calls: seq<Call>, t: Uuid)
    requires Reachable(seeds, db.tables) && Served(calls) && t in db.tables.trades
    requires forall i :: 0 <= i < |calls| ==> PastExpiry(db.tables.trades[t], calls[i].env)
    ensures var b := After(db, calls).tables;
            && t in b.trades
            && (b.trades[t] == db.tables.trades[t]
                || b.trades[t] == db.tables.trades[t].(state := Cancelled, remaining := 0))
    decreases |calls|
  {
    hide Execute, Reachable, PlanDone;
    if calls != [] {
      var last := calls[|calls| - 1];
      var before := After(db, calls[..|calls| - 1]);
      RunsAfterExpiry(seeds, db, calls[..|calls| - 1], t);
      RunsReachable(seeds, db, calls[..|calls| - 1]);
      CallKeepsReachable(seeds, before, last.batch, last.env);
      ExpiredTradeOnlyCancels(seeds, before, last.batch, last.env, t);
    }
  }
}
