/**
 * Market planning from database snapshots: which snapshots may be accepted or cancelled, the plans built from
 * them, and what those plans do when they are executed on the same or on any later state.
 */
module Market {
  import opened Prelude
  import opened Tables
  import opened Plans
  import opened Authorization
  import opened Executor
  import opened Runs
  import opened Trades
  import opened Lifecycle
  import opened Progress
  import opened Messages

  /** One row of the trade query: a trade, its first escrow and the stack the escrow came from. */
  datatype TradeSnapshot = TradeSnapshot(trade: Uuid, state: TradeState, issuer: int, itemType: int, station: int,
                                         price: int, expiresAt: Option<int>, escrow: Uuid, escrowQuantity: int,
                                         escrowReleased: bool, source: Uuid)

  ghost predicate SnapshotOf(b: Tables, s: TradeSnapshot) {
    && s.trade in b.trades && s.escrow in b.stackEscrows
    && var t, e := b.trades[s.trade], b.stackEscrows[s.escrow];
    && e.trade == s.trade && e.source in b.stacks
    && s == TradeSnapshot(s.trade, t.state, t.issuer, t.itemType, t.station, t.price, t.expiresAt, s.escrow, e.quantity,
                          e.released, e.source)
  }

  datatype AcceptRequest = AcceptRequest(key: string, externalId: string, buyer: int, quantity: int, buyerWallet: Uuid,
                                         destination: Option<Uuid>)
  datatype CancelRequest = CancelRequest(key: string, externalId: string, actor: int)
  datatype IssueRequest = IssueRequest(key: string, externalId: string, issuer: int, stack: Uuid, quantity: int,
                                       price: int, expiresAt: Option<int>)

  // ---- the price of a quantity

  /** Two's complement wrap-around of a 64-bit product. */
  function Wrap64(x: int): int { (x - MIN_I64) % 0x1_0000_0000_0000_0000 + MIN_I64 }

  /** checkedISKAmount. */
  function CheckedIskAmount(quantity: int, price: int): Result<int> {
    if price < 0 then Err(InvalidArgument)
    else if price != 0 && quantity > MAX_I64 / price then Err(InvalidArgument)
    else Ok(Wrap64(quantity * price))
  }

  lemma WrapIsExact(x: int)
    ensures Wrap64(x) == x <==> FitsI64(x)
    ensures FitsI64(Wrap64(x))
  {
  }

  lemma QuotientBound(quantity: int, price: int)
    requires price > 0
    ensures quantity > MAX_I64 / price <==> quantity * price > MAX_I64
  {
    var k, r := MAX_I64 / price, MAX_I64 % price;
    assert MAX_I64 == k * price + r && 0 <= r < price;
    assert quantity <= k ==> quantity * price <= k * price;
    assert quantity >= k + 1 ==> quantity * price >= (k + 1) * price;
  }

  /**
   * The amount is refused exactly when the product exceeds 64 bits upwards; an amount that is returned is the exact
   * product, unless a negative quantity makes it wrap downwards.
   */
  lemma IskAmountIsExact(quantity: int, price: int)
    requires price >= 0 && FitsI64(quantity) && FitsI64(price)
    ensures CheckedIskAmount(quantity, price).Err? <==> quantity * price > MAX_I64
    ensures CheckedIskAmount(quantity, price).Ok? ==>
              (CheckedIskAmount(quantity, price).value == quantity * price <==> quantity * price >= MIN_I64)
    ensures quantity >= 0 ==> (CheckedIskAmount(quantity, price) == Ok(quantity * price) <==> FitsI64(quantity * price))
  {
    if price > 0 { QuotientBound(quantity, price); }
    WrapIsExact(quantity * price);
    assert quantity >= 0 ==> quantity * price >= 0;
  }

  // ---- checks on a snapshot

  /** loadAcceptableTrade, after the query. */
  function CheckAcceptable(s: TradeSnapshot, quantity: int, now: int): Result<()> {
    var open := s.state.Open?;
    :- Need(open, FailedPrecondition);
    :- Need(!s.escrowReleased, FailedPrecondition);
    :- Need(s.expiresAt.Some? ==> now < s.expiresAt.value, FailedPrecondition);
    :- Need(quantity <= s.escrowQuantity, FailedPrecondition);
    Ok(())
  }

  /** loadCancellableTrade, after the query. */
  function CheckCancellable(s: TradeSnapshot, actor: int): Result<()> {
    var issuer := actor == s.issuer;
    :- Need(issuer, PermissionDenied);
    :- Need(s.state.Open?, FailedPrecondition);
    :- Need(!s.escrowReleased && s.escrowQuantity > 0, FailedPrecondition);
    Ok(())
  }

  // ---- plans from snapshots

  function AcceptInputFor(s: TradeSnapshot, m: AcceptRequest, sellerWallet: Uuid, amount: int): AcceptInput {
    AcceptInput(m.key, m.externalId, s.trade, m.buyer, s.issuer, s.itemType, s.station, m.quantity, amount,
                m.buyerWallet, sellerWallet,
                s.escrow, m.destination, m.destination.None?, None, m.quantity == s.escrowQuantity)
  }

  function CancelInputFor(s: TradeSnapshot, m: CancelRequest): CancelInput {
    CancelInput(m.key, m.externalId, s.trade, m.actor, Some(s.escrow), Some(s.source), s.escrowQuantity, None, None, 0)
  }

  /** issueTradeInstance takes owner, item type, station and quantity from the stack it loaded. */
  function IssueInputFor(m: IssueRequest, stack: Stack): IssueInput {
    IssueInput(m.key, m.externalId, m.issuer, m.stack, stack.owner, stack.itemType, stack.station, stack.quantity,
               m.quantity, m.price, m.expiresAt, None, None)
  }

  /** The commands of a Market acceptance and of a Market cancellation of the snapshot. */
  function AcceptCommands(s: TradeSnapshot, m: AcceptRequest, sellerWallet: Uuid, amount: int): seq<Command> {
    AcceptOps(AcceptPlanFor(AcceptInputFor(s, m, sellerWallet, amount)))
  }

  function CancelCommands(s: TradeSnapshot, m: CancelRequest): seq<Command> {
    CancelOps(CancelPlanFor(CancelInputFor(s, m)))
  }

  /** The batches a worker executes for Market's plans. */
  function AcceptBatch(s: TradeSnapshot, m: AcceptRequest, sellerWallet: Uuid, amount: int, request: Uuid): Batch {
    BatchOf(Accept, m.key, m.externalId, m.buyer, AcceptCommands(s, m, sellerWallet, amount), request)
  }

  function CancelBatch(s: TradeSnapshot, m: CancelRequest, request: Uuid): Batch {
    BatchOf(Cancel, m.key, m.externalId, m.actor, CancelCommands(s, m), request)
  }

  function IssueBatch(i: IssueInput, request: Uuid): Batch {
    BatchOf(Issue, i.key, i.externalId, i.issuer, IssueOps(i), request)
  }

  /** validateBuyerDestination, for a destination that was found. */
  predicate SuitableDestination(d: Stack, buyer: int, s: TradeSnapshot) {
    d.owner == buyer && d.state.StackActive? && d.itemType == s.itemType && d.station == s.station
  }

  /**
   * acceptTradeInstance, after its queries: the plan carries the snapshot's price and completes exactly when it takes
   * the whole escrow.
   */
  method PlanAccept(s: TradeSnapshot, m: AcceptRequest, buyer: Wallet, sellerWallet: Uuid, seller: Wallet,
                    destination: Option<Stack>, now: int)
    returns (r: Result<SettlementPlan>)
    requires m.destination.Some? <==> destination.Some?
    ensures r.Ok? <==>
              && CheckAcceptable(s, m.quantity, now).Ok? && buyer.owner == m.buyer && buyer.state.WalletActive?
              && seller.state.WalletActive?
              && (destination.Some? ==> SuitableDestination(destination.value, m.buyer, s))
              && CheckedIskAmount(m.quantity, s.price).Ok?
              && ValidAcceptInput(AcceptInputFor(s, m, sellerWallet, CheckedIskAmount(m.quantity, s.price).value))
    ensures r.Ok? ==>
              && r.value.intent == Accept && r.value.key == m.key && r.value.actor == m.buyer
              && var commands := AcceptCommands(s, m, sellerWallet, CheckedIskAmount(m.quantity, s.price).value);
              forall later :: ConvertsTo(r.value.operations, commands, later)
  {
    hide ConvertsTo, CheckAccept, CheckAcceptable, ValidAcceptInput;
    var _ :- CheckAcceptable(s, m.quantity, now);
    :- Need(buyer.owner == m.buyer, FailedPrecondition);
    :- Need(buyer.state.WalletActive?, FailedPrecondition);
    :- Need(seller.state.WalletActive?, FailedPrecondition);
    if destination.Some? {
      var d := destination.value;
      :- Need(d.owner == m.buyer, FailedPrecondition);
      :- Need(d.state.StackActive?, FailedPrecondition);
      :- Need(d.itemType == s.itemType && d.station == s.station, FailedPrecondition);
    }
    var amount :- CheckedIskAmount(m.quantity, s.price);
    r := AcceptTradeInstance(AcceptInputFor(s, m, sellerWallet, amount));
  }

  /** cancelTradeInstance, after its query. */
  method PlanCancel(s: TradeSnapshot, m: CancelRequest) returns (r: Result<SettlementPlan>)
    ensures r.Ok? <==> CheckCancellable(s, m.actor).Ok? && ValidCancelInput(CancelInputFor(s, m))
    ensures r.Ok? ==> r.value.intent == Cancel && r.value.key == m.key && r.value.actor == m.actor
                      && forall later :: ConvertsTo(r.value.operations, CancelCommands(s, m), later)
  {
    hide ConvertsTo, CheckCancel, ValidCancelInput;
    var _ :- CheckCancellable(s, m.actor);
    r := CancelTradeInstance(CancelInputFor(s, m));
  }

  /** issueTradeInstance, after its query: only from an active stack, and with what the stack holds. */
  method PlanIssue(m: IssueRequest, stack: Stack, now: int) returns (r: Result<SettlementPlan>)
    ensures r.Ok? <==> stack.state.StackActive? && ValidIssueInput(IssueInputFor(m, stack), now)
    ensures r.Ok? ==>
              && r.value.intent == Issue && r.value.key == m.key && r.value.actor == m.issuer
              && forall later :: (m.expiresAt.Some? ==> later < m.expiresAt.value) ==>
                   ConvertsTo(r.value.operations, IssueOps(IssueInputFor(m, stack)), later)
  {
    hide ConvertsTo, ValidIssueInput;
    if !stack.state.StackActive? { return Err(FailedPrecondition); }
    r := IssueTradeInstance(IssueInputFor(m, stack), now);
  }

  // ---- plans executed on a later state

  lemma CancelBatchReads(s: TradeSnapshot, m: CancelRequest, request: Uuid)
    ensures var ops := CancelBatch(s, m, request).operations;
            CheckCancel(ops).Ok? && ReadCancel(ops) == CancelPlanFor(CancelInputFor(s, m)) && |ops| == 2
  {
    CancelGrammar(CancelBatch(s, m, request).operations);
  }

  lemma AcceptBatchReads(s: TradeSnapshot, m: AcceptRequest, sellerWallet: Uuid, amount: int, request: Uuid)
    ensures var ops := AcceptBatch(s, m, sellerWallet, amount, request).operations;
            CheckAccept(m.buyer, ops).Ok?
              && ReadAccept(ops) == AcceptPlanFor(AcceptInputFor(s, m, sellerWallet, amount))
  {
    AcceptGrammar(m.buyer, AcceptBatch(s, m, sellerWallet, amount, request).operations);
  }

  /** The trade is in a final state with nothing left, and its escrow is released and empty. */
  ghost predicate Settled(b: Tables, t: Uuid, state: TradeState) {
    && t in b.trades && b.trades[t].state == state && !state.Open? && b.trades[t].remaining == 0
    && forall e :: e in b.stackEscrows && b.stackEscrows[e].trade == t ==>
         b.stackEscrows[e].released && b.stackEscrows[e].quantity == 0
  }

  lemma ClosedIsSettled(b: Tables, t: Uuid)
    requires Sound(b) && t in b.trades && !b.trades[t].state.Open?
    ensures Settled(b, t, b.trades[t].state)
  {
    forall e | e in b.stackEscrows && b.stackEscrows[e].trade == t
      ensures b.stackEscrows[e].released && b.stackEscrows[e].quantity == 0
    {
      assert EscrowSound(b, b.stackEscrows[e]);
    }
  }

  /**
   * A Market-built CANCEL executed on any later state is never refused at commit: it either changes no business row,
   * or it leaves the trade CANCELLED with an empty escrow.
   */
  lemma StaleCancelIsSafe(seeds: map<Uuid, Wallet>, b0: Tables, s: TradeSnapshot, m: CancelRequest, request: Uuid,
                          db: Database, env: BatchEnv)
    requires Reachable(seeds, b0) && SnapshotOf(b0, s)
    requires Reachable(seeds, db.tables) && Evolves(b0, db.tables)
    requires |env.steps| == |CancelBatch(s, m, request).operations|
    ensures var r := Execute(db, CancelBatch(s, m, request), env);
            && !r.outcome.CommitRefused?
            && (if r.outcome.Committed? then Settled(r.db.tables, s.trade, Cancelled) else r.db.tables == db.tables)
  {
    hide Execute, Books, Sound, Run, CommitOk, Prepare, CancelAllowed, Received;
    var batch := CancelBatch(s, m, request);
    CancelBatchReads(s, m, request);
    ExecuteTables(db, batch, env);
    var r := Execute(db, batch, env);
    if r.outcome.Committed? {
      CallKeepsReachable(seeds, db, batch, env);
      ClosedIsSettled(r.db.tables, s.trade);
    }
    if Admit(db.audit, batch).Start? && Prepare(db, batch, env).Ok? {
      CommitRefusals(seeds, db, batch, env);
      if RunAll(db, batch, env).Finished? {
        FinishedPlan(db, batch, env);
        assert EscrowEvolves(b0.stackEscrows[s.escrow], db.tables.stackEscrows[s.escrow]);
      }
    } else {
      RefusedOrReplayed(db, batch, env);
    }
  }

  lemma RefusedOrReplayed(db: Database, batch: Batch, env: BatchEnv)
    requires |env.steps| == |batch.operations| && !(Admit(db.audit, batch).Start? && Prepare(db, batch, env).Ok?)
    ensures Execute(db, batch, env).outcome.Rejected? || Execute(db, batch, env).outcome.Replayed?
  {
    hide Run, CommitOk;
  }

  /**
   * A Market-built ACCEPT is never refused at commit, whatever snapshot it was built from; one that takes the whole
   * escrow of the snapshot changes nothing or leaves the trade COMPLETED and empty.
   */
  lemma StaleAcceptIsSafe(seeds: map<Uuid, Wallet>, s: TradeSnapshot, m: AcceptRequest, sellerWallet: Uuid,
                          amount: int, request: Uuid, db: Database, env: BatchEnv)
    requires Reachable(seeds, db.tables) && |env.steps| == |AcceptBatch(s, m, sellerWallet, amount, request).operations|
    ensures var r := Execute(db, AcceptBatch(s, m, sellerWallet, amount, request), env);
            && !r.outcome.CommitRefused?
            && (!r.outcome.Committed? ==> r.db.tables == db.tables)
            && (r.outcome.Committed? && m.quantity == s.escrowQuantity ==> Settled(r.db.tables, s.trade, Completed))
            && (r.outcome.Committed? && m.quantity != s.escrowQuantity ==>
                  && s.trade in db.tables.trades && s.trade in r.db.tables.trades
                  && r.db.tables.trades[s.trade].state.Open?
                  && r.db.tables.trades[s.trade].remaining == db.tables.trades[s.trade].remaining - m.quantity)
  {
    hide Execute, Books, Sound, Run, CommitOk, Prepare, ExchangeAllowed, Received, Paid;
    var batch := AcceptBatch(s, m, sellerWallet, amount, request);
    AcceptBatchReads(s, m, sellerWallet, amount, request);
    ExecuteTables(db, batch, env);
    var r := Execute(db, batch, env);
    if r.outcome.Committed? {
      CallKeepsReachable(seeds, db, batch, env);
      if m.quantity == s.escrowQuantity { ClosedIsSettled(r.db.tables, s.trade); }
    }
    if Admit(db.audit, batch).Start? && Prepare(db, batch, env).Ok? {
      CommitRefusals(seeds, db, batch, env);
    } else {
      RefusedOrReplayed(db, batch, env);
    }
  }

  /** The same with any run of other batches between the snapshot and the execution. */
  lemma StaleCancelAfterRuns(seeds: map<Uuid, Wallet>, db0: Database, calls: seq<Call>, s: TradeSnapshot,
                             m: CancelRequest, request: Uuid, env: BatchEnv)
    requires Reachable(seeds, db0.tables) && SnapshotOf(db0.tables, s) && Served(calls)
    requires |env.steps| == |CancelBatch(s, m, request).operations|
    ensures var db := After(db0, calls);
            var r := Execute(db, CancelBatch(s, m, request), env);
            if r.outcome.Committed? then Settled(r.db.tables, s.trade, Cancelled) else r.db.tables == db.tables
  {
    hide Reachable, Execute, After, SnapshotOf;
    RunsReachable(seeds, db0, calls);
    StaleCancelIsSafe(seeds, db0.tables, s, m, request, After(db0, calls), env);
  }

  // ---- plans executed on the snapshot's own state

  /** The key, the request and the batch identifier have not been used. */
  predicate Unused(a: Audit, key: string, request: Uuid, batch: Uuid) {
    key !in a.keys && request !in a.attempts && batch !in a.batches && batch !in a.steps
  }

  lemma UnusedIsAdmitted(db: Database, batch: Batch, env: BatchEnv)
    requires batch.intent != Unspecified && ValidatePlan(batch).Ok? && batch.operations != [] && batch.assertion.None?
    requires batch.requestId.Some?
    requires Unused(db.audit, batch.key, batch.requestId.value, env.batch) && AuthorizePlan(db.tables, batch).Ok?
    ensures Admit(db.audit, batch).Start? && Prepare(db, batch, env).Ok?
  {
    hide ValidatePlan, AuthorizePlan;
  }

  /**
   * A Market-built CANCEL on an unchanged state commits, whatever the clock says: the source stack is always there to
   * take the items back, and only its 64-bit quantity and version can stand in the way.
   */
  lemma MarketCancelCommits(seeds: map<Uuid, Wallet>, db: Database, s: TradeSnapshot, m: CancelRequest, request: Uuid,
                            env: BatchEnv)
    requires Reachable(seeds, db.tables) && SnapshotOf(db.tables, s) && CheckCancellable(s, m.actor).Ok? && m.actor != 0
    requires |env.steps| == |CancelBatch(s, m, request).operations| && Unused(db.audit, m.key, request, env.batch)
    requires FitsI64(db.tables.stacks[s.source].quantity + s.escrowQuantity)
    requires FitsI64(db.tables.stacks[s.source].version + 1)
    ensures Execute(db, CancelBatch(s, m, request), env).outcome.Committed?
  {
    hide Execute, Books, Prepare, AuthorizeCancel, TradeSound, HasEscrow;
    var batch, b := CancelBatch(s, m, request), db.tables;
    CancelBatchReads(s, m, request);
    assert EscrowSound(b, b.stackEscrows[s.escrow]) && SourceOk(b, b.stackEscrows[s.escrow]);
    CancelAuthorized(b, m.actor, batch.operations);
    UnusedIsAdmitted(db, batch, env);
    hide Sound, EscrowSound, SourcesOk;
    CommitsIffReady(seeds, db, batch, env);
  }

  /**
   * A Market-built ISSUE commits when its stack is the issuer's, active and large enough and its identifiers are new.
   */
  lemma MarketIssueCommits(seeds: map<Uuid, Wallet>, db: Database, i: IssueInput, request: Uuid, env: BatchEnv)
    requires Reachable(seeds, db.tables) && i.issuer != 0 && i.quantity > 0 && i.price > 0
    requires |env.steps| == 2 && Unused(db.audit, i.key, request, env.batch)
    requires i.stack in db.tables.stacks
    requires var k := db.tables.stacks[i.stack];
             k.owner == i.issuer && k.state.StackActive? && i.quantity <= k.quantity && FitsI64(k.version + 1)
    requires IdOrDerived(i.tradeId, i.key, TradeInstance) !in db.tables.trades
    requires IdOrDerived(i.escrowId, i.key, ItemStackEscrow) !in db.tables.stackEscrows
    requires i.expiresAt.Some? ==> env.steps[0].now < i.expiresAt.value && env.steps[1].now < i.expiresAt.value
    ensures Execute(db, IssueBatch(i, request), env).outcome.Committed?
  {
    hide Execute, Reachable, Prepare;
    UnusedIsAdmitted(db, IssueBatch(i, request), env);
    CommitsIffReady(seeds, db, IssueBatch(i, request), env);
  }

  /** The state still offers `q` units of the snapshot's trade, and all of them if the snapshot did. */
  predicate StillOffers(b: Tables, s: TradeSnapshot, q: int) {
    && s.trade in b.trades && s.escrow in b.stackEscrows
    && var t, e := b.trades[s.trade], b.stackEscrows[s.escrow];
    && t.state.Open? && t.issuer == s.issuer && t.price == s.price && e.trade == s.trade
    && 0 < q <= t.remaining && (q == s.escrowQuantity ==> q == t.remaining)
    && e.itemType == s.itemType && e.station == s.station
  }

  /** The wallets, the destination and the clock allow the acceptance. */
  predicate BuyerIsReady(b: Tables, s: TradeSnapshot, m: AcceptRequest, sellerWallet: Uuid, env: BatchEnv)
    requires s.trade in b.trades && s.escrow in b.stackEscrows
  {
    && m.buyer != 0 && m.buyer != s.issuer
    && m.buyerWallet in b.wallets && b.wallets[m.buyerWallet].owner == m.buyer
    && WalletGives(b.wallets[m.buyerWallet], m.quantity * s.price)
    && sellerWallet in b.wallets && b.wallets[sellerWallet].owner == s.issuer
    && WalletTakes(b.wallets[sellerWallet], m.quantity * s.price)
    && Derived(m.key, BuyerWalletEscrow) !in b.walletEscrows
    && (if m.destination.Some? then
          && m.destination.value in b.stacks && b.stacks[m.destination.value].owner == m.buyer
          && StackTakes(b.stacks[m.destination.value], b.stackEscrows[s.escrow], m.quantity)
        else Derived(m.key, BuyerDestination) !in b.stacks)
    && forall k :: 0 <= k < |env.steps| ==> !Expired(b.trades[s.trade], env.steps[k].now)
  }

  /**
   * A Market-built ACCEPT commits on every reachable state that still offers its quantity at its price, when the buyer
   * is not the issuer, both wallets are active, the funds suffice, nothing overflows or has expired, and its key and
   * identifiers are new.
   */
  lemma MarketAcceptCommits(seeds: map<Uuid, Wallet>, db: Database, s: TradeSnapshot, m: AcceptRequest,
                            sellerWallet: Uuid, request: Uuid, env: BatchEnv)
    requires Reachable(seeds, db.tables) && StillOffers(db.tables, s, m.quantity)
    requires BuyerIsReady(db.tables, s, m, sellerWallet, env)
    requires FitsI64(m.quantity) && FitsI64(s.price) && CheckedIskAmount(m.quantity, s.price).Ok?
    requires |env.steps| == |AcceptBatch(s, m, sellerWallet, m.quantity * s.price, request).operations|
    requires Unused(db.audit, m.key, request, env.batch)
    ensures CheckedIskAmount(m.quantity, s.price).value == m.quantity * s.price
    ensures Execute(db, AcceptBatch(s, m, sellerWallet, m.quantity * s.price, request), env).outcome.Committed?
  {
    hide Execute, Books, Prepare, AuthorizeAccept, HasEscrow, CheckedIskAmount;
    var amount := m.quantity * s.price;
    var batch, b := AcceptBatch(s, m, sellerWallet, amount, request), db.tables;
    AcceptBatchReads(s, m, sellerWallet, amount, request);
    assert EscrowSound(b, b.stackEscrows[s.escrow]) && TradeSound(b.trades[s.trade]);
    IskAmountIsExact(m.quantity, s.price);
    assert amount >= 0;
    assert ExchangeAllowed(b, m.buyer, ReadAccept(batch.operations));
    AcceptAuthorized(b, m.buyer, batch.operations);
    UnusedIsAdmitted(db, batch, env);
    hide Sound, EscrowSound;
    CommitsIffReady(seeds, db, batch, env);
  }

  /**
   * Where a trade advertises what its escrow holds, a snapshot passes loadAcceptableTrade exactly when its own state
   * offers the quantity and the trade has not expired.
   */
  lemma AcceptableIsOffered(b: Tables, s: TradeSnapshot, q: int, now: int)
    requires Sound(b) && SnapshotOf(b, s) && q > 0
    requires b.stackEscrows[s.escrow].itemType == s.itemType && b.stackEscrows[s.escrow].station == s.station
    ensures CheckAcceptable(s, q, now).Ok? <==> StillOffers(b, s, q) && !Expired(b.trades[s.trade], now)
  {
    assert EscrowSound(b, b.stackEscrows[s.escrow]);
  }

  /**
   * A snapshot passes loadCancellableTrade exactly when the issuer asks and the OPEN trade still has something to
   * return.
   */
  lemma CancellableHasRemainder(b: Tables, s: TradeSnapshot, actor: int)
    requires Sound(b) && SnapshotOf(b, s)
    ensures CheckCancellable(s, actor).Ok? <==>
            actor == b.trades[s.trade].issuer && b.trades[s.trade].state.Open? && b.trades[s.trade].remaining > 0
  {
    assert EscrowSound(b, b.stackEscrows[s.escrow]) && TradeSound(b.trades[s.trade]);
  }

  /**
   * An ACCEPT planned from a snapshot, executed after a run that left exactly its quantity and less than the snapshot
   * showed, leaves the trade OPEN with nothing remaining; from then on Market neither accepts nor cancels it.
   */
  lemma StaleAcceptStrandsTrade(seeds: map<Uuid, Wallet>, db0: Database, calls: seq<Call>, s: TradeSnapshot,
                                m: AcceptRequest, sellerWallet: Uuid, request: Uuid, env: BatchEnv,
                                later: TradeSnapshot, quantity: int, now: int, actor: int)
    requires Reachable(seeds, db0.tables) && SnapshotOf(db0.tables, s) && Served(calls)
    requires var db := After(db0, calls);
             && StillOffers(db.tables, s, m.quantity) && BuyerIsReady(db.tables, s, m, sellerWallet, env)
             && Unused(db.audit, m.key, request, env.batch)
             && m.quantity == db.tables.trades[s.trade].remaining && m.quantity < s.escrowQuantity
    requires FitsI64(m.quantity) && FitsI64(s.price) && CheckedIskAmount(m.quantity, s.price).Ok?
    requires |env.steps| == |AcceptBatch(s, m, sellerWallet, m.quantity * s.price, request).operations|
    ensures var r := Execute(After(db0, calls), AcceptBatch(s, m, sellerWallet, m.quantity * s.price, request), env);
            var b1 := r.db.tables;
            && r.outcome.Committed?
            && s.trade in b1.trades && b1.trades[s.trade].state.Open? && b1.trades[s.trade].remaining == 0
            && (SnapshotOf(b1, later) && later.trade == s.trade ==>
                  CheckAcceptable(later, quantity, now).Err? && CheckCancellable(later, actor).Err?)
  {
    hide Execute, Books, SourcesOk, After, StillOffers, BuyerIsReady, CheckedIskAmount, TradeSound, HasEscrow, Evolves;
    var db := After(db0, calls);
    RunsReachable(seeds, db0, calls);
    MarketAcceptCommits(seeds, db, s, m, sellerWallet, request, env);
    StaleAcceptIsSafe(seeds, s, m, sellerWallet, m.quantity * s.price, request, db, env);
    var batch := AcceptBatch(s, m, sellerWallet, m.quantity * s.price, request);
    CallKeepsReachable(seeds, db, batch, env);
    var b1 := Execute(db, batch, env).db.tables;
    assert SnapshotOf(b1, later) ==> EscrowSound(b1, b1.stackEscrows[later.escrow]);
  }

  /** A CANCEL that returns only part of the escrow is authorized and runs to its end, and is undone at commit. */
  lemma PartialCancelIsRefused(seeds: map<Uuid, Wallet>, db: Database, s: TradeSnapshot, m: CancelRequest,
                               request: Uuid, env: BatchEnv)
    requires Reachable(seeds, db.tables) && s.trade in db.tables.trades && s.escrow in db.tables.stackEscrows
    requires s.source in db.tables.stacks
    requires var t, e := db.tables.trades[s.trade], db.tables.stackEscrows[s.escrow];
             && t.state.Open? && t.issuer == m.actor && m.actor != 0 && e.trade == s.trade
             && 0 < s.escrowQuantity < e.quantity && db.tables.stacks[s.source].owner == m.actor
             && StackTakes(db.tables.stacks[s.source], e, s.escrowQuantity)
    requires |env.steps| == |CancelBatch(s, m, request).operations| && Unused(db.audit, m.key, request, env.batch)
    ensures Execute(db, CancelBatch(s, m, request), env) == Executed(db, CommitRefused)
  {
    hide Execute, Books, Prepare, AuthorizeCancel, TradeSound, HasEscrow, Run;
    var batch, b := CancelBatch(s, m, request), db.tables;
    CancelBatchReads(s, m, request);
    assert EscrowSound(b, b.stackEscrows[s.escrow]);
    CancelAuthorized(b, m.actor, batch.operations);
    UnusedIsAdmitted(db, batch, env);
    hide Sound, EscrowSound;
    FinishesIffReady(seeds, db, batch, env);
    CommitRefusals(seeds, db, batch, env);
    CommitRefusedIsAll(db, batch, env);
  }

  lemma CommitRefusedIsAll(db: Database, batch: Batch, env: BatchEnv)
    requires |env.steps| == |batch.operations| && Execute(db, batch, env).outcome.CommitRefused?
    ensures Execute(db, batch, env) == Executed(db, CommitRefused)
  {
    hide Run, CommitOk, AttemptAudit, Prepare, Admit;
  }

  // ---- what a trade advertises and what its escrow holds

  /** The trade's row names the item type and station of its escrow. */
  ghost predicate Advertised(b: Tables, t: Uuid)
    requires t in b.trades
  {
    forall e :: e in b.stackEscrows && b.stackEscrows[e].trade == t ==>
      b.stackEscrows[e].itemType == b.trades[t].itemType && b.stackEscrows[e].station == b.trades[t].station
  }

  /** The plan names the item type and station of the stack it takes the items from. */
  predicate NamesStack(b: Tables, create: Command, fund: Command)
    requires create.CreateTradeRow? && fund.StackToEscrow?
  {
    fund.source in b.stacks && create.itemType == b.stacks[fund.source].itemType
      && create.station == b.stacks[fund.source].station
  }

  lemma IssuedAdvertises(b: Tables, b1: Tables, create: Command, fund: Command, e: Uuid)
    requires create.CreateTradeRow? && fund.StackToEscrow? && Sound(b) && Issued(b, b1, create, fund, e)
    ensures fund.trade in b1.trades && (Advertised(b1, fund.trade) <==> NamesStack(b, create, fund))
  {
    assert b1.stackEscrows[e].trade == fund.trade;
    assert forall f :: f in b.stackEscrows ==> EscrowSound(b, b.stackEscrows[f]);
  }

  /** Neither side of the comparison ever changes. */
  lemma AdvertisedStays(b: Tables, b1: Tables, t: Uuid)
    requires Sound(b) && Sound(b1) && Evolves(b, b1) && t in b.trades
    ensures t in b1.trades && (Advertised(b1, t) <==> Advertised(b, t))
  {
    hide StacksEvolve, TradeSound;
    var e := EscrowOf(b, t);
    assert EscrowEvolves(b.stackEscrows[e], b1.stackEscrows[e]) && TradeEvolves(b.trades[t], b1.trades[t]);
    assert forall f :: f in b.stackEscrows && b.stackEscrows[f].trade == t ==> f == e;
    assert forall f :: f in b1.stackEscrows && b1.stackEscrows[f].trade == t ==> f == e;
  }

  /**
   * After a committed ISSUE and any served run, the trade advertises what its escrow holds if and only if the plan
   * named the item type and station of its stack; the settlement service does not compare them.
   */
  lemma AdvertisedAsHeld(seeds: map<Uuid, Wallet>, db: Database, batch: Batch, env: BatchEnv, calls: seq<Call>)
    requires |env.steps| == |batch.operations| && batch.intent == Issue && Reachable(seeds, db.tables) && Served(calls)
    requires Execute(db, batch, env).outcome.Committed?
    ensures |batch.operations| == 2 && batch.operations[0].CreateTradeRow? && batch.operations[1].StackToEscrow?
    ensures var b, t := After(Execute(db, batch, env).db, calls).tables, batch.operations[1].trade;
            t in b.trades && (Advertised(b, t) <==> NamesStack(db.tables, batch.operations[0], batch.operations[1]))
  {
    hide Execute, Books, SourcesOk, After, Advertised, NamesStack, Run, Prepare, Issued, Evolves;
    CallKeepsReachable(seeds, db, batch, env);
    ExecuteTables(db, batch, env);
    var db1, create, fund := Execute(db, batch, env).db, batch.operations[0], batch.operations[1];
    var e := CommittedIssue(seeds, db, batch, env);
    IssuedAdvertises(db.tables, db1.tables, create, fund, e);
    RunsReachable(seeds, db1, calls);
    AdvertisedStays(db1.tables, After(db1, calls).tables, fund.trade);
  }

  /** A Market ISSUE names the stack it loaded, from whatever earlier state it was loaded. */
  lemma MarketIssueAdvertises(seeds: map<Uuid, Wallet>, b0: Tables, m: IssueRequest, request: Uuid, db: Database,
                              env: BatchEnv, calls: seq<Call>)
    requires m.stack in b0.stacks && Evolves(b0, db.tables) && Reachable(seeds, db.tables) && Served(calls)
    requires |env.steps| == 2
    requires Execute(db, IssueBatch(IssueInputFor(m, b0.stacks[m.stack]), request), env).outcome.Committed?
    ensures var b := After(Execute(db, IssueBatch(IssueInputFor(m, b0.stacks[m.stack]), request), env).db,
                           calls).tables;
            var t := Derived(m.key, TradeInstance);
            t in b.trades && Advertised(b, t)
  {
    hide Execute, Reachable, After, Advertised;
    assert StackEvolves(b0.stacks[m.stack], db.tables.stacks[m.stack]);
    AdvertisedAsHeld(seeds, db, IssueBatch(IssueInputFor(m, b0.stacks[m.stack]), request), env, calls);
  }

  /**
   * A trade Market issued is acceptable, in every later state, exactly when that state offers the quantity and it has
   * not expired.
   */
  lemma MarketTradeIsAcceptable(seeds: map<Uuid, Wallet>, b0: Tables, m: IssueRequest, request: Uuid, db: Database,
                                env: BatchEnv, calls: seq<Call>, s: TradeSnapshot, q: int, now: int)
    requires m.stack in b0.stacks && Evolves(b0, db.tables) && Reachable(seeds, db.tables) && Served(calls)
    requires |env.steps| == 2
    requires Execute(db, IssueBatch(IssueInputFor(m, b0.stacks[m.stack]), request), env).outcome.Committed?
    requires var b := After(Execute(db, IssueBatch(IssueInputFor(m, b0.stacks[m.stack]), request), env).db,
                            calls).tables;
             SnapshotOf(b, s) && s.trade == Derived(m.key, TradeInstance) && q > 0
    ensures var b := After(Execute(db, IssueBatch(IssueInputFor(m, b0.stacks[m.stack]), request), env).db,
                           calls).tables;
            CheckAcceptable(s, q, now).Ok? <==> StillOffers(b, s, q) && !Expired(b.trades[s.trade], now)
  {
    hide Execute, Books, Sound, SourcesOk, After, CheckAcceptable, StillOffers, Evolves;
    var batch := IssueBatch(IssueInputFor(m, b0.stacks[m.stack]), request);
    MarketIssueAdvertises(seeds, b0, m, request, db, env, calls);
    CallKeepsReachable(seeds, db, batch, env);
    RunsReachable(seeds, Execute(db, batch, env).db, calls);
    AcceptableIsOffered(After(Execute(db, batch, env).db, calls).tables, s, q, now);
  }

  /**
   * A trade that does not advertise what its escrow holds is never sold by Market: a plan built from a snapshot of it,
   * with a destination that Market found suitable or creates, never commits on any later state.
   */
  lemma MismatchedTradeIsNeverSold(seeds: map<Uuid, Wallet>, b0: Tables, s: TradeSnapshot, m: AcceptRequest,
                                   sellerWallet: Uuid, amount: int, request: Uuid, db: Database, env: BatchEnv)
    requires Reachable(seeds, b0) && SnapshotOf(b0, s) && !Advertised(b0, s.trade)
    requires m.destination.Some? ==>
               m.destination.value in b0.stacks && SuitableDestination(b0.stacks[m.destination.value], m.buyer, s)
    requires Reachable(seeds, db.tables) && Evolves(b0, db.tables)
    requires |env.steps| == |AcceptBatch(s, m, sellerWallet, amount, request).operations|
    ensures !Execute(db, AcceptBatch(s, m, sellerWallet, amount, request), env).outcome.Committed?
    ensures Execute(db, AcceptBatch(s, m, sellerWallet, amount, request), env).db.tables == db.tables
  {
    hide Execute, Books, SourcesOk, Prepare, TradeSound, HasEscrow, ExchangeAllowed;
    var batch := AcceptBatch(s, m, sellerWallet, amount, request);
    AcceptBatchReads(s, m, sellerWallet, amount, request);
    assert EscrowEvolves(b0.stackEscrows[s.escrow], db.tables.stackEscrows[s.escrow]);
    if m.destination.Some? {
      assert StackEvolves(b0.stacks[m.destination.value], db.tables.stacks[m.destination.value]);
    }
    hide Sound, EscrowSound, Evolves;
    CommitsIffReady(seeds, db, batch, env);
    ExecuteTables(db, batch, env);
  }
}
