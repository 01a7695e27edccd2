/**
 * Exactly when a plan succeeds: conditions on the database, the clock and the plan that can be read before the
 * call, equivalent to every step succeeding.
 */
module Progress {
  import opened Prelude
  import opened MapSums
  import opened Tables
  import opened Operations
  import opened Effects
  import opened Conservation
  import opened Plans
  import opened Authorization
  import opened Executor
  import opened Ledgers
  import opened Runs
  import opened Trades
  import opened Lifecycle

  // ---- single steps

  predicate WalletGives(w: Wallet, amount: int) {
    w.state.WalletActive? && amount <= w.amount && FitsI64(w.version + 1)
  }

  predicate WalletTakes(w: Wallet, amount: int) {
    w.state.WalletActive? && FitsI64(w.amount + amount) && FitsI64(w.version + 1)
  }

  predicate StackTakes(s: Stack, e: StackEscrow, q: int) {
    s.state.StackActive? && s.itemType == e.itemType && s.station == e.station && FitsI64(s.quantity + q)
      && FitsI64(s.version + 1)
  }

  lemma DebitSucceeds(seeds: map<Uuid, Wallet>, b: Tables, c: Command, env: StepEnv, step: StepId)
    requires c.WalletToEscrow? && c.walletEscrowId.Some? && Books(seeds, b)
    requires c.walletEscrowId.value !in b.walletEscrows && IsLive(b, c.trade, env.now)
    requires c.sourceWallet in b.wallets && WalletGives(b.wallets[c.sourceWallet], c.amount)
    requires c.amount > 0 && PaymentMatchesPrice(b.trades[c.trade], c.amount).Ok?
    ensures Apply(b, c, env, step).Ok?
  {
    hide WalletChain, StackLedgersOk, ItemAmountsInRange;
  }

  lemma ReleaseSucceeds(seeds: map<Uuid, Wallet>, b: Tables, e: Uuid, d: Uuid, q: int, rule: OwnerRule, env: StepEnv,
                        step: StepId)
    requires Books(seeds, b) && ReleaseGuard(b, e, d, q, rule, env.now).Ok?
    requires StackTakes(b.stacks[d], b.stackEscrows[e], q)
    requires b.stackEscrows[e].trade in b.trades && TradeSound(b.trades[b.stackEscrows[e].trade])
    requires b.trades[b.stackEscrows[e].trade].remaining == b.stackEscrows[e].quantity
    ensures ReleaseItems(b, e, d, q, rule, env, step).Ok?
  {
    StackGuardsNeverFire(b, d, b.stacks[d].quantity + q, StackActive, ReleaseKind(rule), step);
    hide StackChain, WalletLedgersOk, IskAmountsInRange, Sum, ExtendsLedger, MakeRecord;
  }

  lemma CreditSucceeds(seeds: map<Uuid, Wallet>, b: Tables, c: Command, env: StepEnv, step: StepId)
    requires c.EscrowToNewOwnerWallet? && Books(seeds, b)
    requires c.walletEscrow in b.walletEscrows && c.destinationWallet in b.wallets
    requires var e := b.walletEscrows[c.walletEscrow];
             !e.released && 0 < c.amount <= e.amount && b.wallets[c.destinationWallet].owner != e.owner
               && IsLive(b, e.trade, env.now)
    requires WalletTakes(b.wallets[c.destinationWallet], c.amount)
    ensures Apply(b, c, env, step).Ok?
  {
    hide WalletChain, StackLedgersOk, ItemAmountsInRange;
  }

  lemma CreationSucceeds(b: Tables, c: Command, env: StepEnv, step: StepId)
    requires c.CreateEmptyStack? && StackLedgersOk(b) && IdOr(c.stackId, env.newId) !in b.stacks
    ensures Apply(b, c, env, step).Ok?
  {
  }

  /** One more step of a run. */
  lemma StepGoesOn(seeds: map<Uuid, Wallet>, b: Tables, ops: seq<Command>, envs: seq<StepEnv>, batch: Uuid,
                   n: nat) returns (b1: Tables)
    requires n < |ops| == |envs| && Run(b, ops, envs, batch, n).Finished?
    requires Books(seeds, Run(b, ops, envs, batch, n).tables)
    requires Apply(Run(b, ops, envs, batch, n).tables, ops[n], envs[n], StepId(batch, n)).Ok?
    ensures Run(b, ops, envs, batch, n + 1).Finished? && b1 == Run(b, ops, envs, batch, n + 1).tables
    ensures Effect(Run(b, ops, envs, batch, n).tables, b1, ops[n], envs[n], StepId(batch, n)) && Books(seeds, b1)
  {
    hide Apply, Effect, Books;
    RunStep(b, ops, envs, batch, n + 1);
    b1 := Run(b, ops, envs, batch, n + 1).tables;
    BooksStep(seeds, Run(b, ops, envs, batch, n).tables, b1, ops[n], envs[n], StepId(batch, n));
  }

  // ---- ACCEPT

  /** The destination stack as the delivery step will find it. */
  ghost predicate DestinationTakes(b: Tables, p: AcceptPlan, newId: Uuid)
    requires p.delivery.EscrowToNewOwnerStack? && p.delivery.escrow in b.stackEscrows
    requires p.create.Some? ==> p.create.value.CreateEmptyStack?
  {
    var d, q, es := p.delivery.destination, p.delivery.quantity, b.stackEscrows[p.delivery.escrow];
    if p.create.Some? && CreatedId(p, newId) == d then
      var c := p.create.value;
      StackTakes(NewStackRow(d, c.owner, c.itemType, c.station), es, q)
    else
      d in b.stacks && StackTakes(b.stacks[d], es, q)
  }

  /** What must hold, beyond authorization, for an ACCEPT whose steps read the clock at `now[0..4]`. */
  ghost predicate AcceptReady(b: Tables, actor: int, p: AcceptPlan, newId: Uuid, now: seq<int>)
    requires AcceptPlanOk(actor, p) && |now| == 4
  {
    && ExchangeAllowed(b, actor, p)
    && var t := b.trades[p.debit.trade];
    && 0 < p.delivery.quantity && actor != t.issuer
    && (p.create.Some? ==> CreatedId(p, newId) !in b.stacks)
    && DestinationTakes(b, p, newId)
    && p.credit.walletEscrow !in b.walletEscrows
    && WalletGives(b.wallets[p.debit.sourceWallet], p.debit.amount)
    && WalletTakes(b.wallets[p.credit.destinationWallet], p.debit.amount)
    && !Expired(t, now[0]) && !Expired(t, now[1]) && !Expired(t, now[2])
    && (p.completion.Some? ==> p.delivery.quantity == t.remaining && !Expired(t, now[3]))
  }

  ghost predicate StackAdded(b: Tables, b0: Tables, p: AcceptPlan, newId: Uuid)
    requires p.create.Some? ==> p.create.value.CreateEmptyStack?
  {
    if p.create.Some? then
      var c, created := p.create.value, CreatedId(p, newId);
      && b0.wallets == b.wallets && b0.walletEscrows == b.walletEscrows && b0.stackEscrows == b.stackEscrows
      && b0.trades == b.trades
      && created !in b.stacks && b0.stacks == b.stacks[created := NewStackRow(created, c.owner, c.itemType, c.station)]
    else b0 == b
  }

  lemma ExactQuotient(q: int, price: int)
    requires price > 0
    ensures (q * price) % price == 0 && (q * price) / price == q
  {
    var k, r := (q * price) / price, (q * price) % price;
    assert q * price == k * price + r;
    SmallMultiple(price, q - k, r);
  }

  lemma SmallMultiple(d: int, z: int, r: int)
    requires 0 <= r < d && z * d == r
    ensures z == 0
  {
    assert z >= 1 ==> z * d >= 1 * d;
    assert z <= -1 ==> z * d <= -1 * d;
  }

  /**
   * In a reachable state the divisibility and remaining-quantity guards of the debit pass every authorized exchange.
   */
  lemma DebitPriceAgrees(b: Tables, b0: Tables, actor: int, p: AcceptPlan, newId: Uuid)
    requires AcceptPlanOk(actor, p) && Sound(b) && ExchangeAllowed(b, actor, p) && 0 < p.delivery.quantity
    requires StackAdded(b, b0, p, newId)
    ensures 0 < p.debit.amount && PaymentMatchesPrice(b0.trades[p.debit.trade], p.debit.amount).Ok?
  {
    hide EscrowSound, HasEscrow;
    var t, q := b.trades[p.debit.trade], p.delivery.quantity;
    assert TradeSound(t);
    ExactQuotient(q, t.price);
    assert q * t.price >= 1 * t.price;
  }

  /**
   * After the debit, the active wallet escrows of the trade hold exactly the price of the delivery, and the remainder
   * is the escrow's.
   */
  lemma ReleasePriceAgrees(b: Tables, b0: Tables, b1: Tables, actor: int, p: AcceptPlan, newId: Uuid, now: int,
                           step: StepId, later: int)
    requires AcceptPlanOk(actor, p) && Sound(b) && ExchangeAllowed(b, actor, p) && StackAdded(b, b0, p, newId)
    requires IskEscrowed(b0, b1, p.debit, p.credit.walletEscrow, now, step) && !Expired(b.trades[p.debit.trade], later)
    ensures PaymentMatchesRelease(b1, p.debit.trade, p.delivery.quantity, later).Ok?
    ensures b1.stacks == b0.stacks && b1.stackEscrows == b.stackEscrows && b1.trades == b.trades
    ensures b.trades[p.debit.trade].remaining == b.stackEscrows[p.delivery.escrow].quantity
    ensures TradeSound(b.trades[p.debit.trade])
  {
    hide HasEscrow, WalletPut, FitsI64;
    NoIskHeld(b);
    SumSingle(b1.walletEscrows, p.credit.walletEscrow, ActiveIsk(p.debit.trade));
    assert EscrowSound(b, b.stackEscrows[p.delivery.escrow]);
  }

  lemma DebitReady(seeds: map<Uuid, Wallet>, b: Tables, b0: Tables, actor: int, p: AcceptPlan, newId: Uuid,
                   now: seq<int>, env: StepEnv, step: StepId)
    requires AcceptPlanOk(actor, p) && |now| == 4 && AcceptReady(b, actor, p, newId, now) && now[0] == env.now
    requires Sound(b) && StackAdded(b, b0, p, newId) && Books(seeds, b0)
    ensures Apply(b0, p.debit, env, step).Ok?
  {
    hide Apply, Books, Sound, DestinationTakes;
    DebitPriceAgrees(b, b0, actor, p, newId);
    DebitSucceeds(seeds, b0, p.debit, env, step);
  }

  lemma DeliveryReady(seeds: map<Uuid, Wallet>, b: Tables, b0: Tables, b1: Tables, actor: int, p: AcceptPlan,
                      newId: Uuid, now: seq<int>, debited: StepId, env: StepEnv, step: StepId)
    requires AcceptPlanOk(actor, p) && |now| == 4 && AcceptReady(b, actor, p, newId, now) && now[1] == env.now
    requires Sound(b) && StackAdded(b, b0, p, newId)
    requires IskEscrowed(b0, b1, p.debit, p.credit.walletEscrow, now[0], debited) && Books(seeds, b1)
    ensures Apply(b1, p.delivery, env, step).Ok?
  {
    hide Books, Sound, IskEscrowed, ReleaseItems, FitsI64, PaymentMatchesRelease;
    ReleasePriceAgrees(b, b0, b1, actor, p, newId, now[0], debited, env.now);
    ReleaseSucceeds(seeds, b1, p.delivery.escrow, p.delivery.destination, p.delivery.quantity, NewOwner, env, step);
  }

  lemma CreditReady(seeds: map<Uuid, Wallet>, b: Tables, m: seq<Tables>, actor: int, p: AcceptPlan, newId: Uuid,
                    now: seq<int>, debited: StepId, delivered: StepId, env: StepEnv, step: StepId)
    requires AcceptPlanOk(actor, p) && |now| == 4 && |m| == 3 && AcceptReady(b, actor, p, newId, now)
    requires now[2] == env.now
    requires StackAdded(b, m[0], p, newId) && IskEscrowed(m[0], m[1], p.debit, p.credit.walletEscrow, now[0], debited)
    requires ItemsReleased(m[1], m[2], p.delivery.escrow, p.delivery.destination, p.delivery.quantity, NewOwner, now[1],
                           delivered)
    requires Books(seeds, m[2])
    ensures Apply(m[2], p.credit, env, step).Ok?
  {
    hide Books, Apply, StackPut, Sum, FitsI64, DestinationTakes;
    var t := p.debit.trade;
    assert m[2].trades[t] == b.trades[t].(remaining := m[2].trades[t].remaining);
    CreditSucceeds(seeds, m[2], p.credit, env, step);
  }

  lemma CompletionSucceeds(b: Tables, c: Command, env: StepEnv, step: StepId)
    requires c.ModifyTradeState? && c.toState == Named(Completed) && !c.changeKind.OtherChange?
    requires c.trade in b.trades && b.trades[c.trade].state.Open? && !Expired(b.trades[c.trade], env.now)
    requires Sum(b.stackEscrows, ActiveItems(c.trade)) == 0 && Sum(b.walletEscrows, ActiveIsk(c.trade)) == 0
    ensures Apply(b, c, env, step).Ok?
  {
  }

  lemma CompletionReady(b: Tables, b3: Tables, actor: int, p: AcceptPlan, newId: Uuid, now: seq<int>, env: StepEnv,
                        step: StepId)
    requires AcceptPlanOk(actor, p) && |now| == 4 && AcceptReady(b, actor, p, newId, now) && now[3] == env.now
    requires p.completion.Some?
    requires Sound(b) && Paid(b, b3, actor, p.(completion := None))
    requires Delivered(b, b3, actor, p.(completion := None), CreatedId(p, newId))
    ensures Apply(b3, p.completion.value, env, step).Ok?
  {
    hide DestinationTakes, Received, Sound, Paid, Apply;
    var t := p.debit.trade;
    AcceptKeepsSound(b, b3, actor, p.(completion := None), CreatedId(p, newId));
    SoundSums(b3, t);
    CompletionSucceeds(b3, p.completion.value, env, step);
  }

  /** The clock reads of an ACCEPT: debit, delivery, credit and, if there is one, completion. */
  function AcceptClock(ops: seq<Command>, envs: seq<StepEnv>): (now: seq<int>)
    requires HasAcceptCore(ops) && |envs| == |ops|
    ensures |now| == 4
  {
    var i := Lead(ops);
    [envs[i].now, envs[i + 1].now, envs[i + 2].now, if i + 3 < |ops| then envs[i + 3].now else 0]
  }

  /** Where the parts of an ACCEPT plan stand in its operation list. */
  predicate LaidOut(p: AcceptPlan, ops: seq<Command>, i: nat) {
    && i == (if p.create.Some? then 1 else 0)
    && |ops| == i + 3 + (if p.completion.Some? then 1 else 0)
    && (p.create.Some? ==> ops[0] == p.create.value)
    && ops[i] == p.debit && ops[i + 1] == p.delivery && ops[i + 2] == p.credit
    && (p.completion.Some? ==> ops[i + 3] == p.completion.value)
  }

  lemma CreationStage(seeds: map<Uuid, Wallet>, b: Tables, actor: int, ops: seq<Command>, envs: seq<StepEnv>,
                      batch: Uuid, p: AcceptPlan, i: nat)
    returns (b0: Tables)
    requires AcceptPlanOk(actor, p) && LaidOut(p, ops, i) && |envs| == |ops| && Books(seeds, b)
    requires p.create.Some? ==> CreatedId(p, envs[0].newId) !in b.stacks
    ensures Run(b, ops, envs, batch, i).Finished? && b0 == Run(b, ops, envs, batch, i).tables
    ensures Books(seeds, b0) && StackAdded(b, b0, p, envs[0].newId)
    ensures if p.create.Some? then StackCreated(b, b0, p.create.value, CreatedId(p, envs[0].newId), StepId(batch, 0))
              else b0 == b
  {
    assert Run(b, ops, envs, batch, 0) == Finished(b, []);
    b0 := b;
    if p.create.Some? {
      CreationSucceeds(b, ops[0], envs[0], StepId(batch, 0));
      hide Apply, Books, StackCreated, Run;
      b0 := StepGoesOn(seeds, b, ops, envs, batch, 0);
      CreatedKeeps(b, b0, ops[0], IdOr(ops[0].stackId, envs[0].newId), StepId(batch, 0));
    }
  }

  /** The debit, the delivery and the credit all succeed. */
  lemma ExchangeStage(seeds: map<Uuid, Wallet>, b: Tables, actor: int, ops: seq<Command>, envs: seq<StepEnv>,
                      batch: Uuid, p: AcceptPlan, i: nat, now: seq<int>, b0: Tables)
    returns (b1: Tables, b2: Tables, b3: Tables)
    requires AcceptPlanOk(actor, p) && i + 3 <= |ops| == |envs| && Sound(b)
    requires ops[i] == p.debit && ops[i + 1] == p.delivery && ops[i + 2] == p.credit
    requires Run(b, ops, envs, batch, i).Finished? && b0 == Run(b, ops, envs, batch, i).tables
    requires Books(seeds, b0) && StackAdded(b, b0, p, envs[0].newId)
    requires |now| == 4 && now[0] == envs[i].now && now[1] == envs[i + 1].now && now[2] == envs[i + 2].now
    requires AcceptReady(b, actor, p, envs[0].newId, now)
    ensures Run(b, ops, envs, batch, i + 3).Finished? && b3 == Run(b, ops, envs, batch, i + 3).tables
    ensures Books(seeds, b3)
    ensures IskEscrowed(b0, b1, p.debit, p.credit.walletEscrow, envs[i].now, StepId(batch, i))
    ensures ItemsReleased(b1, b2, p.delivery.escrow, p.delivery.destination, p.delivery.quantity, NewOwner,
                          envs[i + 1].now, StepId(batch, i + 1))
    ensures IskReleased(b2, b3, p.credit.walletEscrow, p.credit.destinationWallet, p.credit.amount, NewOwner,
                        envs[i + 2].now, StepId(batch, i + 2))
  {
    hide Apply, Books, Run, Sound, AcceptReady, IskEscrowed, ItemsReleased, IskReleased, StackAdded, Effect;
    var newId := envs[0].newId;
    DebitReady(seeds, b, b0, actor, p, newId, now, envs[i], StepId(batch, i));
    b1 := StepGoesOn(seeds, b, ops, envs, batch, i);
    DebitEffect(b0, b1, p.debit, envs[i], StepId(batch, i));
    DeliveryReady(seeds, b, b0, b1, actor, p, newId, now, StepId(batch, i), envs[i + 1], StepId(batch, i + 1));
    b2 := StepGoesOn(seeds, b, ops, envs, batch, i + 1);
    DeliveryEffect(b1, b2, p.delivery, envs[i + 1], StepId(batch, i + 1));
    CreditReady(seeds, b, [b0, b1, b2], actor, p, newId, now, StepId(batch, i), StepId(batch, i + 1), envs[i + 2],
                StepId(batch, i + 2));
    b3 := StepGoesOn(seeds, b, ops, envs, batch, i + 2);
    CreditEffect(b2, b3, p.credit, envs[i + 2], StepId(batch, i + 2));
  }

  lemma DebitEffect(b: Tables, b1: Tables, c: Command, env: StepEnv, step: StepId)
    requires c.WalletToEscrow? && c.walletEscrowId.Some? && Effect(b, b1, c, env, step)
    ensures IskEscrowed(b, b1, c, c.walletEscrowId.value, env.now, step)
  {
  }

  lemma DeliveryEffect(b: Tables, b1: Tables, c: Command, env: StepEnv, step: StepId)
    requires c.EscrowToNewOwnerStack? && Effect(b, b1, c, env, step)
    ensures ItemsReleased(b, b1, c.escrow, c.destination, c.quantity, NewOwner, env.now, step)
  {
  }

  lemma CreditEffect(b: Tables, b1: Tables, c: Command, env: StepEnv, step: StepId)
    requires c.EscrowToNewOwnerWallet? && Effect(b, b1, c, env, step)
    ensures IskReleased(b, b1, c.walletEscrow, c.destinationWallet, c.amount, NewOwner, env.now, step)
  {
  }

  lemma PlanGoesThrough(seeds: map<Uuid, Wallet>, b: Tables, actor: int, ops: seq<Command>, envs: seq<StepEnv>,
                        batch: Uuid, p: AcceptPlan, i: nat, now: seq<int>)
    requires AcceptPlanOk(actor, p) && LaidOut(p, ops, i) && |envs| == |ops| && Books(seeds, b) && Sound(b)
    requires |now| == 4 && now[0] == envs[i].now && now[1] == envs[i + 1].now && now[2] == envs[i + 2].now
    requires p.completion.Some? ==> now[3] == envs[i + 3].now
    requires AcceptReady(b, actor, p, envs[0].newId, now)
    ensures Run(b, ops, envs, batch, |ops|).Finished?
  {
    hide Apply, Books, StackCreated, Run, Sound, AcceptReady, IskEscrowed, ItemsReleased, IskReleased, StackAdded,
         Effect;
    var newId := envs[0].newId;
    ReadyIsAllowed(b, actor, p, newId, now);
    hide ExchangeAllowed;
    var b0 := CreationStage(seeds, b, actor, ops, envs, batch, p, i);
    var b1, b2, b3 := ExchangeStage(seeds, b, actor, ops, envs, batch, p, i, now, b0);
    if p.completion.Some? {
      var steps := [StepId(batch, 0), StepId(batch, i), StepId(batch, i + 1), StepId(batch, i + 2),
                    StepId(batch, i + 3)];
      CompletionStage(b, [b0, b1, b2, b3], actor, p, newId, now, steps, envs[i + 3]);
      var b4 := StepGoesOn(seeds, b, ops, envs, batch, i + 3);
    }
  }

  /** An ACCEPT that is ready in a reachable state succeeds at every step. */
  lemma AcceptGoesThrough(seeds: map<Uuid, Wallet>, b: Tables, actor: int, ops: seq<Command>, envs: seq<StepEnv>,
                          batch: Uuid)
    requires CheckAccept(actor, ops).Ok? && |envs| == |ops| && Reachable(seeds, b)
    requires AcceptReady(b, actor, ReadAccept(ops), envs[0].newId, AcceptClock(ops, envs))
    ensures Run(b, ops, envs, batch, |ops|).Finished?
  {
    hide Books, Run, Sound, AcceptReady;
    PlanGoesThrough(seeds, b, actor, ops, envs, batch, ReadAccept(ops), Lead(ops), AcceptClock(ops, envs));
  }

  lemma CompletionStage(b: Tables, m: seq<Tables>, actor: int, p: AcceptPlan, newId: Uuid, now: seq<int>,
                        step: seq<StepId>, env: StepEnv)
    requires AcceptPlanOk(actor, p) && |now| == 4 && |m| == 4 && |step| == 5 && now[3] == env.now && p.completion.Some?
    requires AcceptReady(b, actor, p, newId, now) && Sound(b)
    requires if p.create.Some? then StackCreated(b, m[0], p.create.value, CreatedId(p, newId), step[0]) else m[0] == b
    requires IskEscrowed(m[0], m[1], p.debit, p.credit.walletEscrow, now[0], step[1])
    requires ItemsReleased(m[1], m[2], p.delivery.escrow, p.delivery.destination, p.delivery.quantity, NewOwner, now[1],
                           step[2])
    requires IskReleased(m[2], m[3], p.credit.walletEscrow, p.credit.destinationWallet, p.credit.amount, NewOwner,
                         now[2], step[3])
    ensures Apply(m[3], p.completion.value, env, step[4]).Ok?
  {
    hide Apply, StackCreated, Sound, AcceptReady, IskEscrowed, ItemsReleased, IskReleased, Paid, Delivered;
    var plain, created, clock := p.(completion := None), CreatedId(p, newId), [0, now[0], now[1], now[2], now[3]];
    assert AcceptSteps(b, m, m[3], plain, created, clock, step);
    ReadyIsAllowed(b, actor, p, newId, now);
    hide AcceptSteps;
    AcceptItems(b, m, m[3], actor, plain, created, clock, step);
    AcceptIsk(b, m, m[3], actor, plain, created, clock, step);
    CompletionReady(b, m[3], actor, p, newId, now, env, step[4]);
  }

  lemma ReadyIsAllowed(b: Tables, actor: int, p: AcceptPlan, newId: Uuid, now: seq<int>)
    requires AcceptPlanOk(actor, p) && |now| == 4 && AcceptReady(b, actor, p, newId, now)
    ensures p.create.Some? ==> CreatedId(p, newId) !in b.stacks
    ensures ExchangeAllowed(b, actor, p) && ExchangeAllowed(b, actor, p.(completion := None))
    ensures actor != b.trades[p.debit.trade].issuer
  {
  }

  /** The parts of readiness that concern ISK. */
  lemma PaymentWasReady(b: Tables, m: seq<Tables>, b1: Tables, actor: int, p: AcceptPlan, created: Uuid, now: seq<int>,
                        step: seq<StepId>)
    requires AcceptPlanOk(actor, p) && |m| == 4 && |now| == |step| == 5
    requires Sound(b) && ExchangeAllowed(b, actor, p) && AcceptSteps(b, m, b1, p, created, now, step)
    requires actor != b.trades[p.debit.trade].issuer
    ensures p.credit.walletEscrow !in b.walletEscrows
    ensures WalletGives(b.wallets[p.debit.sourceWallet], p.debit.amount)
    ensures WalletTakes(b.wallets[p.credit.destinationWallet], p.debit.amount)
    ensures !Expired(b.trades[p.debit.trade], now[1]) && !Expired(b.trades[p.debit.trade], now[2])
    ensures !Expired(b.trades[p.debit.trade], now[3])
  {
    hide Sum, StackCreated, StackPut, TradeClosed, EscrowSound, TradeSound, HasEscrow;
    if p.create.Some? { CreatedKeeps(b, m[0], p.create.value, created, step[0]); }
  }

  /** The parts of readiness that concern items and the completion. */
  lemma DeliveryWasReady(b: Tables, m: seq<Tables>, b1: Tables, actor: int, p: AcceptPlan, newId: Uuid, now: seq<int>,
                         step: seq<StepId>)
    requires AcceptPlanOk(actor, p) && |m| == 4 && |now| == |step| == 5
    requires ExchangeAllowed(b, actor, p) && AcceptSteps(b, m, b1, p, CreatedId(p, newId), now, step)
    ensures p.create.Some? ==> CreatedId(p, newId) !in b.stacks
    ensures DestinationTakes(b, p, newId)
    ensures p.completion.Some? ==> !Expired(b.trades[p.debit.trade], now[4])
  {
    hide Sum, StackCreated, IskEscrowed, IskReleased, ExtendsLedger, MakeRecord;
    var created := CreatedId(p, newId);
    if p.create.Some? { CreatedKeeps(b, m[0], p.create.value, created, step[0]); }
    DebitKeepsItems(m[0], m[1], p.debit, p.credit.walletEscrow, now[1], step[1]);
    CreditKeepsItems(m[2], m[3], p.credit, now[3], step[3]);
  }

  lemma AcceptWasReady(states: seq<Tables>, actor: int, ops: seq<Command>, envs: seq<StepEnv>, batch: Uuid)
    requires CheckAccept(actor, ops).Ok? && Trace(states, ops, envs, batch)
    requires Sound(states[0]) && ExchangeAllowed(states[0], actor, ReadAccept(ops))
    ensures AcceptReady(states[0], actor, ReadAccept(ops), envs[0].newId, AcceptClock(ops, envs))
  {
    hide AcceptSteps, Sound, Effect, Paid, Received, Expired, WalletGives, WalletTakes, DestinationTakes;
    var p, b, b1 := ReadAccept(ops), states[0], states[|ops|];
    var m, created, now, step := AcceptTrace(states, actor, ops, envs, batch);
    AcceptEffect(states, actor, ops, envs, batch);
    var t := b.trades[p.debit.trade];
    PaymentWasReady(b, m, b1, actor, p, created, now, step);
    DeliveryWasReady(b, m, b1, actor, p, envs[0].newId, now, step);
  }

  // ---- ISSUE

  /** What must hold, beyond authorization, for an ISSUE. */
  predicate IssueReady(b: Tables, create: Command, fund: Command, envs: seq<StepEnv>)
    requires create.CreateTradeRow? && fund.StackToEscrow? && |envs| == 2
  {
    && create.total > 0 && create.price > 0 && create.tradeKind.Sell? && create.tradeState == Named(Open)
    && (create.expiresAt.Some? ==> envs[0].now < create.expiresAt.value && envs[1].now < create.expiresAt.value)
    && fund.trade !in b.trades && IdOr(fund.escrowId, envs[1].newId) !in b.stackEscrows
    && fund.source in b.stacks
    && var s := b.stacks[fund.source];
    && s.state.StackActive? && fund.quantity <= s.quantity && FitsI64(s.version + 1)
  }

  lemma FundingSucceeds(b: Tables, c: Command, env: StepEnv, step: StepId)
    requires c.StackToEscrow? && StackLedgersOk(b) && ItemAmountsInRange(b) && c.source in b.stacks
    requires IsLive(b, c.trade, env.now) && b.stacks[c.source].owner == b.trades[c.trade].issuer
    requires c.quantity > 0 && forall e :: e in b.stackEscrows ==> b.stackEscrows[e].trade != c.trade
    ensures EscrowItems(b, c, env, step).Ok? <==>
            var s := b.stacks[c.source];
            && s.state.StackActive? && c.quantity <= s.quantity && FitsI64(s.version + 1)
            && IdOr(c.escrowId, env.newId) !in b.stackEscrows
  {
    var after := b.stacks[c.source].quantity - c.quantity;
    StackVersionPositive(b, c.source);
    StackGuardsNeverFire(b, c.source, after, StackActive, TransferToEscrow, step);
    hide StackLedgersOk, ExtendsLedger, MakeRecord;
  }

  lemma StackVersionPositive(b: Tables, s: Uuid)
    requires StackLedgersOk(b) && s in b.stacks
    ensures 0 < b.stacks[s].version
  {
    StackReplays(RowsOf(b.stackLedger, s), b.stacks[s]);
  }

  /** An authorized ISSUE succeeds at both steps exactly when it is ready. */
  lemma IssueSucceeds(seeds: map<Uuid, Wallet>, b: Tables, actor: int, ops: seq<Command>, envs: seq<StepEnv>,
                      batch: Uuid)
    requires ValidateIssue(actor, ops).Ok? && AuthorizeIssue(b, actor, ops).Ok? && |envs| == 2 && Reachable(seeds, b)
    ensures Run(b, ops, envs, batch, 2).Finished? <==> IssueReady(b, ops[0], ops[1], envs)
  {
    hide StackLedgersOk, WalletLedgersOk, ItemAmountsInRange, IskAmountsInRange, EscrowItems, TradeSound, HasEscrow;
    var create, fund := ops[0], ops[1];
    assert Run(b, ops, envs, batch, 0) == Finished(b, []);
    var r := CreateTrade(b, create, envs[0]);
    if r.Ok? {
      var b1 := r.value.tables;
      assert Run(b, ops, envs, batch, 1).Finished? && Run(b, ops, envs, batch, 1).tables == b1;
      forall e | e in b1.stackEscrows
        ensures b1.stackEscrows[e].trade != fund.trade
      {
        assert EscrowSound(b, b.stackEscrows[e]);
      }
      SameStacksKeep(b, b1);
      if create.expiresAt.None? || envs[1].now < create.expiresAt.value {
        FundingSucceeds(b1, fund, envs[1], StepId(batch, 1));
      } else {
        assert EscrowItems(b1, fund, envs[1], StepId(batch, 1)).Err? by {
          LateFunding(b1, fund, envs[1], StepId(batch, 1));
        }
      }
    }
  }

  lemma LateFunding(b: Tables, c: Command, env: StepEnv, step: StepId)
    requires c.StackToEscrow? && c.trade in b.trades && Expired(b.trades[c.trade], env.now)
    ensures EscrowItems(b, c, env, step).Err?
  {
  }

  lemma SameStacksKeep(b: Tables, b1: Tables)
    requires StackLedgersOk(b) && ItemAmountsInRange(b) && SameItems(b, b1)
    ensures StackLedgersOk(b1) && ItemAmountsInRange(b1)
  {
  }

  // ---- CANCEL

  /** What must hold, beyond authorization, for a CANCEL: nothing about the clock. */
  predicate CancelReady(b: Tables, p: CancelPlan)
    requires p.items.Some? ==> p.items.value.EscrowToPreviousOwnerStack? && p.items.value.escrow in b.stackEscrows
                               && p.items.value.destination in b.stacks
  {
    p.items.Some? ==>
      var c, e := p.items.value, b.stackEscrows[p.items.value.escrow];
      0 < c.quantity <= e.quantity && StackTakes(b.stacks[c.destination], e, c.quantity)
  }

  lemma CancellationSucceeds(b: Tables, c: Command, env: StepEnv, step: StepId)
    requires c.ModifyTradeState? && CancellationOk(c) && c.trade in b.trades && b.trades[c.trade].state.Open?
    ensures Apply(b, c, env, step).Ok?
  {
  }

  lemma ReturnSucceeds(seeds: map<Uuid, Wallet>, b: Tables, c: Command, env: StepEnv, step: StepId)
    requires c.EscrowToPreviousOwnerStack? && Reachable(seeds, b) && c.escrow in b.stackEscrows
    requires c.destination in b.stacks
    requires b.stackEscrows[c.escrow].owner == b.stacks[c.destination].owner
    ensures var r := Apply(b, c, env, step);
            && (r.Ok? <==> 0 < c.quantity <= b.stackEscrows[c.escrow].quantity
                           && StackTakes(b.stacks[c.destination], b.stackEscrows[c.escrow], c.quantity))
            && (r.Ok? ==> r.value.tables.trades.Keys == b.trades.Keys
                          && forall t :: t in b.trades ==> r.value.tables.trades[t].state == b.trades[t].state)
  {
    hide ReleaseItems, Books, HasEscrow, Sum;
    assert EscrowSound(b, b.stackEscrows[c.escrow]);
    var r := ReleaseItems(b, c.escrow, c.destination, c.quantity, PreviousOwner, env, step);
    if 0 < c.quantity <= b.stackEscrows[c.escrow].quantity
      && StackTakes(b.stacks[c.destination], b.stackEscrows[c.escrow], c.quantity) {
      ReleaseSucceeds(seeds, b, c.escrow, c.destination, c.quantity, PreviousOwner, env, step);
    }
    if r.Ok? {
      ReleaseItemsEffect(b, c.escrow, c.destination, c.quantity, PreviousOwner, env, step);
    }
  }

  /** An authorized CANCEL succeeds at every step exactly when it is ready, whatever the clock says. */
  lemma CancelSucceeds(seeds: map<Uuid, Wallet>, b: Tables, actor: int, ops: seq<Command>, envs: seq<StepEnv>,
                       batch: Uuid)
    requires CheckCancel(ops).Ok? && |envs| == |ops| && Reachable(seeds, b) && CancelAllowed(b, actor, ReadCancel(ops))
    ensures Run(b, ops, envs, batch, |ops|).Finished? <==> CancelReady(b, ReadCancel(ops))
  {
    hide Books, Apply, EscrowSound, TradeSound, HasEscrow, CancelReady, Sound, Run;
    var p := ReadCancel(ops);
    if p.items.None? {
      assert CancelReady(b, p) by { EmptyCancelReady(b, p); }
      RunOne(b, ops, envs, batch);
      CancellationSucceeds(b, ops[0], envs[0], StepId(batch, 0));
    } else {
      var c := p.items.value;
      assert b.stackEscrows[c.escrow].owner == actor by { IssuerOwns(b, c.escrow); }
      ReturnSucceeds(seeds, b, c, envs[0], StepId(batch, 0));
      ItemsCancelReady(b, p);
      RunTwo(b, ops, envs, batch);
      var r := Apply(b, c, envs[0], StepId(batch, 0));
      if r.Ok? { CancellationSucceeds(r.value.tables, ops[1], envs[1], StepId(batch, 1)); }
    }
  }

  lemma EmptyCancelReady(b: Tables, p: CancelPlan)
    requires p.items.None?
    ensures CancelReady(b, p)
  {
  }

  lemma ItemsCancelReady(b: Tables, p: CancelPlan)
    requires p.items.Some? && p.items.value.EscrowToPreviousOwnerStack?
    requires p.items.value.escrow in b.stackEscrows && p.items.value.destination in b.stacks
    ensures CancelReady(b, p) <==>
            var c, e := p.items.value, b.stackEscrows[p.items.value.escrow];
            0 < c.quantity <= e.quantity && StackTakes(b.stacks[c.destination], e, c.quantity)
  {
  }

  lemma IssuerOwns(b: Tables, e: Uuid)
    requires Sound(b) && e in b.stackEscrows
    ensures b.stackEscrows[e].trade in b.trades && b.stackEscrows[e].owner == b.trades[b.stackEscrows[e].trade].issuer
  {
    assert EscrowSound(b, b.stackEscrows[e]);
  }

  lemma RunOne(b: Tables, ops: seq<Command>, envs: seq<StepEnv>, batch: Uuid)
    requires |ops| == |envs| == 1
    ensures Run(b, ops, envs, batch, 1).Finished? <==> Apply(b, ops[0], envs[0], StepId(batch, 0)).Ok?
  {
    hide Apply;
    assert Run(b, ops, envs, batch, 0) == Finished(b, []);
  }

  lemma RunTwo(b: Tables, ops: seq<Command>, envs: seq<StepEnv>, batch: Uuid)
    requires |ops| == |envs| == 2
    ensures var r := Apply(b, ops[0], envs[0], StepId(batch, 0));
            Run(b, ops, envs, batch, 2).Finished? <==>
              r.Ok? && Apply(r.value.tables, ops[1], envs[1], StepId(batch, 1)).Ok?
  {
    hide Apply;
    assert Run(b, ops, envs, batch, 0) == Finished(b, []);
    assert Run(b, ops, envs, batch, 1).Finished? <==> Apply(b, ops[0], envs[0], StepId(batch, 0)).Ok?;
  }

  // ---- the whole call

  /** What must hold of the database, the clock and the fresh identifiers for an authorized plan to succeed. */
  ghost predicate Ready(b: Tables, batch: Batch, env: BatchEnv)
    requires batch.intent != Unspecified && ValidatePlan(batch).Ok? && |env.steps| == |batch.operations|
  {
    var actor, ops := batch.actor.value, batch.operations;
    match batch.intent
    case Issue => IssueReady(b, ops[0], ops[1], env.steps)
    case Accept => AcceptReady(b, actor, ReadAccept(ops), env.steps[0].newId, AcceptClock(ops, env.steps))
    case Cancel =>
      var p := ReadCancel(ops);
      CancelAllowed(b, actor, p) && CancelReady(b, p)
  }

  lemma FinishesIffReady(seeds: map<Uuid, Wallet>, db: Database, batch: Batch, env: BatchEnv)
    requires |env.steps| == |batch.operations| && batch.intent != Unspecified && Reachable(seeds, db.tables)
    requires Admit(db.audit, batch).Start? && Prepare(db, batch, env).Ok?
    ensures RunAll(db, batch, env).Finished? <==> Ready(db.tables, batch, env)
  {
    hide Run, Reachable, IssueReady, AcceptReady, CancelReady, CancelAllowed, ExchangeAllowed, AuthorizeAccept,
         AuthorizeCancel, AuthorizeIssue;
    var b, ops, actor := db.tables, batch.operations, batch.actor.value;
    match batch.intent
    case Issue =>
      IssueSucceeds(seeds, b, actor, ops, env.steps, env.batch);
    case Accept =>
      AcceptSucceeds(seeds, b, actor, ops, env.steps, env.batch);
    case Cancel =>
      ReachableIsSound(seeds, b);
      CancelAuthorized(b, actor, ops);
      CancelSucceeds(seeds, b, actor, ops, env.steps, env.batch);
  }

  lemma ReachableIsSound(seeds: map<Uuid, Wallet>, b: Tables)
    requires Reachable(seeds, b)
    ensures Sound(b) && Books(seeds, b)
  {
  }

  /** An authorized ACCEPT in a reachable state succeeds at every step exactly when it is ready. */
  lemma AcceptSucceeds(seeds: map<Uuid, Wallet>, b: Tables, actor: int, ops: seq<Command>, envs: seq<StepEnv>,
                       batch: Uuid)
    requires CheckAccept(actor, ops).Ok? && |envs| == |ops| && Reachable(seeds, b) && AuthorizeAccept(b, actor, ops).Ok?
    ensures Run(b, ops, envs, batch, |ops|).Finished? <==>
            AcceptReady(b, actor, ReadAccept(ops), envs[0].newId, AcceptClock(ops, envs))
  {
    hide Run, Books, Sound, AcceptReady, Effect, AuthorizeAccept, ExchangeAllowed;
    AcceptAuthorized(b, actor, ops);
    if Run(b, ops, envs, batch, |ops|).Finished? {
      var states := RunTrace(b, ops, envs, batch, |ops|);
      AcceptWasReady(states, actor, ops, envs, batch);
    } else if AcceptReady(b, actor, ReadAccept(ops), envs[0].newId, AcceptClock(ops, envs)) {
      AcceptGoesThrough(seeds, b, actor, ops, envs, batch);
    }
  }

  /**
   * In a reachable state a batch commits if and only if its key admits an attempt, its identifiers are unused,
   * it is authorized and ready, and, for a CANCEL, it returns the whole escrow.
   */
  lemma CommitsIffReady(seeds: map<Uuid, Wallet>, db: Database, batch: Batch, env: BatchEnv)
    requires |env.steps| == |batch.operations| && batch.intent != Unspecified && Reachable(seeds, db.tables)
    ensures Execute(db, batch, env).outcome.Committed? <==>
            && Admit(db.audit, batch).Start? && Prepare(db, batch, env).Ok?
            && Ready(db.tables, batch, env) && ReturnsAll(db.tables, batch)
  {
    hide Execute, Reachable, Run, Prepare, Ready;
    ExecuteTables(db, batch, env);
    if Admit(db.audit, batch).Start? && Prepare(db, batch, env).Ok? {
      FinishesIffReady(seeds, db, batch, env);
      CommitRefusals(seeds, db, batch, env);
      AttemptOutcome(db, batch, env);
    }
  }

  lemma AttemptOutcome(db: Database, batch: Batch, env: BatchEnv)
    requires |env.steps| == |batch.operations| && Admit(db.audit, batch).Start? && Prepare(db, batch, env).Ok?
    ensures RunAll(db, batch, env).Stopped? ==> Execute(db, batch, env).outcome.Failed?
    ensures RunAll(db, batch, env).Finished? ==>
              Execute(db, batch, env).outcome.Committed? || Execute(db, batch, env).outcome.CommitRefused?
  {
    hide Run, CommitOk, AttemptAudit;
  }
}
