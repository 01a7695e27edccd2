/**
 * Trades and their escrows in every reachable state, and the whole effect of an ISSUE, ACCEPT or
 * CANCEL plan whose steps all succeed.
 */
module Trades {
  import opened Prelude
  import opened MapSums
  import opened Tables
  import opened Operations
  import opened Effects
  import opened Plans
  import opened Authorization
  import opened Executor
  import opened Ledgers
  import opened Runs

  // ---- reachable states

  /** Each trade has exactly one item escrow, whose quantity is the trade's remainder; no wallet escrow holds ISK. */
  ghost predicate Sound(b: Tables) {
    && (forall e :: e in b.stackEscrows ==> EscrowSound(b, b.stackEscrows[e]))
    && (forall e, f ::
          e in b.stackEscrows && f in b.stackEscrows && b.stackEscrows[e].trade == b.stackEscrows[f].trade ==> e == f)
    && (forall t :: t in b.trades ==> TradeSound(b.trades[t]) && HasEscrow(b, t))
    && (forall w :: w in b.walletEscrows ==> b.walletEscrows[w].released && b.walletEscrows[w].amount == 0)
  }

  predicate EscrowSound(b: Tables, e: StackEscrow) {
    && e.trade in b.trades
    && e.owner == b.trades[e.trade].issuer
    && e.quantity == b.trades[e.trade].remaining
    && (e.released <==> e.quantity == 0)
  }

  predicate TradeSound(t: Trade) {
    && 0 <= t.remaining <= t.total && 0 < t.total && 0 < t.price
    && (!t.state.Open? ==> t.remaining == 0)
  }

  ghost predicate HasEscrow(b: Tables, t: Uuid) {
    exists e :: e in b.stackEscrows && b.stackEscrows[e].trade == t
  }

  ghost function EscrowOf(b: Tables, t: Uuid): (e: Uuid)
    requires Sound(b) && t in b.trades
    ensures e in b.stackEscrows && b.stackEscrows[e].trade == t && b.stackEscrows[e].quantity == b.trades[t].remaining
  {
    assert HasEscrow(b, t);
    var e :| e in b.stackEscrows && b.stackEscrows[e].trade == t;
    assert EscrowSound(b, b.stackEscrows[e]);
    e
  }

  /** In a reachable state the SUM queries over active escrows return the remainder, and no ISK. */
  lemma SoundSums(b: Tables, t: Uuid)
    requires Sound(b) && t in b.trades
    ensures Sum(b.stackEscrows, ActiveItems(t)) == b.trades[t].remaining
    ensures Sum(b.walletEscrows, ActiveIsk(t)) == 0
  {
    var e := EscrowOf(b, t);
    forall f | f in b.stackEscrows && f != e
      ensures ActiveItems(t)(b.stackEscrows[f]) == 0
    {
    }
    SumSingle(b.stackEscrows, e, ActiveItems(t));
    assert EscrowSound(b, b.stackEscrows[e]);
    SumZero(b.walletEscrows, ActiveIsk(t));
  }

  /** Reachable states satisfy the deferred constraints. */
  lemma SoundCommits(b: Tables)
    requires Sound(b) && StackLedgersOk(b)
    ensures CommitOk(b)
  {
    hide StackLedgersOk, Projects;
    forall t | t in b.trades
      ensures TradeBalanced(b, t)
    {
      SoundSums(b, t);
    }
    StacksProject(b);
  }

  // ---- the states a finished run goes through

  ghost predicate Trace(states: seq<Tables>, ops: seq<Command>, envs: seq<StepEnv>, batch: Uuid) {
    && |envs| == |ops| && |states| == |ops| + 1
    && forall j :: 0 <= j < |ops| ==> Effect(states[j], states[j + 1], ops[j], envs[j], StepId(batch, j))
  }

  lemma {:induction false} RunTrace(b: Tables, ops: seq<Command>, envs: seq<StepEnv>, batch: Uuid,
                                    n: nat) returns (states: seq<Tables>)
    requires n <= |ops| == |envs| && Run(b, ops, envs, batch, n).Finished?
    ensures |states| == n + 1 && states[0] == b && states[n] == Run(b, ops, envs, batch, n).tables
    ensures forall j :: 0 <= j < n ==> Effect(states[j], states[j + 1], ops[j], envs[j], StepId(batch, j))
  {
    hide Apply, Effect;
    if n == 0 {
      states := [b];
    } else {
      RunStep(b, ops, envs, batch, n);
      states := RunTrace(b, ops, envs, batch, n - 1);
      states := states + [Run(b, ops, envs, batch, n).tables];
    }
  }

  // ---- ISSUE

  /** A new trade `t` and its escrow `e`, funded from the issuer's stack. */
  ghost predicate Issued(b: Tables, b1: Tables, create: Command, fund: Command, e: Uuid)
    requires create.CreateTradeRow? && fund.StackToEscrow?
  {
    var t := fund.trade;
    && t !in b.trades && e !in b.stackEscrows && (fund.escrowId.Some? ==> e == fund.escrowId.value)
    && create.total > 0 && create.price > 0 && fund.quantity == create.total
    && fund.source in b.stacks && b.stacks[fund.source].owner == create.issuer
    && b.stacks[fund.source].quantity >= fund.quantity
    && SameIsk(b, b1)
    && b1.trades == b.trades[t := Trade(Open, create.issuer, create.itemType, create.station, create.total,
                                        create.total,
                                        create.price, create.expiresAt)]
    && var s := b.stacks[fund.source];
    && b1.stackEscrows == b.stackEscrows[e := StackEscrow(t, s.owner, fund.source, s.itemType, s.station, fund.quantity,
                                                          false)]
    && b1.stacks == b.stacks[fund.source := StackRowAfter(fund.source, s, s.quantity - fund.quantity, StackActive)]
  }

  lemma IssueEffect(states: seq<Tables>, actor: int, ops: seq<Command>, envs: seq<StepEnv>,
                    batch: Uuid) returns (e: Uuid)
    requires ValidateIssue(actor, ops).Ok? && Trace(states, ops, envs, batch) && Sound(states[0])
    ensures Issued(states[0], states[2], ops[0], ops[1], e)
  {
    hide Sum, ExtendsLedger, MakeRecord;
    var b, b1, b2 := states[0], states[1], states[2];
    assert Effect(b, b1, ops[0], envs[0], StepId(batch, 0));
    assert Effect(b1, b2, ops[1], envs[1], StepId(batch, 1));
    e := IdOr(ops[1].escrowId, envs[1].newId);
    assert e in b.stackEscrows ==> EscrowSound(b, b.stackEscrows[e]);
  }

  lemma IssueKeepsSound(b: Tables, b1: Tables, create: Command, fund: Command, e: Uuid)
    requires create.CreateTradeRow? && fund.StackToEscrow? && Sound(b) && Issued(b, b1, create, fund, e)
    ensures Sound(b1)
  {
    assert b1.stackEscrows[e].trade == fund.trade;
    forall f | f in b.stackEscrows
      ensures f != e && b1.stackEscrows[f] == b.stackEscrows[f] && EscrowSound(b1, b1.stackEscrows[f])
      ensures b.stackEscrows[f].trade != fund.trade
    {
      assert EscrowSound(b, b.stackEscrows[f]);
    }
    forall t | t in b1.trades
      ensures TradeSound(b1.trades[t]) && HasEscrow(b1, t)
    {
      if t != fund.trade {
        var f := EscrowOf(b, t);
        assert b1.stackEscrows[f].trade == t;
      }
    }
  }

  // ---- ACCEPT

  /** The buyer's wallet pays the debit, the seller's wallet receives it, and the wallet escrow is left empty. */
  ghost predicate Paid(b: Tables, b1: Tables, actor: int, p: AcceptPlan)
    requires p.debit.WalletToEscrow? && p.credit.EscrowToNewOwnerWallet?
  {
    var payer, payee, we := p.debit.sourceWallet, p.credit.destinationWallet, p.credit.walletEscrow;
    && payer in b.wallets && payee in b.wallets && p.debit.amount <= b.wallets[payer].amount
    && b1.wallets == b.wallets[payer := WalletRowAfter(payer, b.wallets[payer],
                                                       b.wallets[payer].amount - p.debit.amount)]
                              [payee := WalletRowAfter(payee, b.wallets[payee],
                                                       b.wallets[payee].amount + p.debit.amount)]
    && we !in b.walletEscrows
    && b1.walletEscrows == b.walletEscrows[we := WalletEscrow(p.debit.trade, actor, payer, 0, true)]
  }

  /** Escrow `e` and the remainder of its trade fall by `q`, and the trade is left in `state`. */
  predicate Drained(b: Tables, b1: Tables, t: Uuid, e: Uuid, q: int, state: TradeState) {
    && t in b.trades && e in b.stackEscrows
    && var es := b.stackEscrows[e];
    && es.trade == t && 0 < q <= b.trades[t].remaining == es.quantity
    && b1.stackEscrows == b.stackEscrows[e := es.(quantity := es.quantity - q, released := es.quantity == q)]
    && b1.trades == b.trades[t := b.trades[t].(remaining := b.trades[t].remaining - q, state := state)]
  }

  /** The stacks a delivery finds: those of the state, and the one the plan created. */
  function StacksWith(b: Tables, p: AcceptPlan, created: Uuid): map<Uuid, Stack>
    requires p.create.Some? ==> p.create.value.CreateEmptyStack?
  {
    if p.create.Some? then
      var c := p.create.value;
      b.stacks[created := NewStackRow(created, c.owner, c.itemType, c.station)]
    else b.stacks
  }

  /**
   * Of the stacks `base`, only `d` is rewritten: an active stack of the owner, matching the escrow, receives `q` units.
   */
  predicate Received(base: map<Uuid, Stack>, after: map<Uuid, Stack>, es: StackEscrow, d: Uuid, q: int, owner: int) {
    && d in base && base[d].state.StackActive? && base[d].owner == owner
    && base[d].itemType == es.itemType && base[d].station == es.station
    && after == base[d := StackRowAfter(d, base[d], base[d].quantity + q, StackActive)]
  }

  predicate Delivered(b: Tables, b1: Tables, actor: int, p: AcceptPlan, created: Uuid)
    requires p.debit.WalletToEscrow? && p.delivery.EscrowToNewOwnerStack?
    requires p.create.Some? ==> p.create.value.CreateEmptyStack?
  {
    var t, e, q := p.debit.trade, p.delivery.escrow, p.delivery.quantity;
    && Drained(b, b1, t, e, q, if p.completion.Some? then Completed else Open)
    && actor != b.trades[t].issuer
    && (p.create.Some? ==> created !in b.stacks)
    && Received(StacksWith(b, p, created), b1.stacks, b.stackEscrows[e], p.delivery.destination, q, actor)
  }

  lemma DrainKeepsSound(b: Tables, b1: Tables, t: Uuid, e: Uuid, q: int, state: TradeState)
    requires Sound(b) && Drained(b, b1, t, e, q, state)
    requires !state.Open? ==> b.trades[t].remaining == q
    requires forall w :: w in b1.walletEscrows ==> b1.walletEscrows[w].released && b1.walletEscrows[w].amount == 0
    ensures Sound(b1)
  {
    forall f | f in b1.stackEscrows
      ensures f in b.stackEscrows && b1.stackEscrows[f].trade == b.stackEscrows[f].trade
      ensures EscrowSound(b1, b1.stackEscrows[f])
    {
      assert EscrowSound(b, b.stackEscrows[f]);
    }
    forall u | u in b1.trades
      ensures TradeSound(b1.trades[u]) && HasEscrow(b1, u)
    {
      var f := EscrowOf(b, u);
      assert b1.stackEscrows[f].trade == u;
    }
  }

  /**
   * The states of a finished ACCEPT: after the optional stack, the debit, the delivery, the credit and the completion.
   */
  ghost predicate AcceptSteps(b: Tables, m: seq<Tables>, b1: Tables, p: AcceptPlan, created: Uuid, now: seq<int>,
                              step: seq<StepId>)
    requires p.debit.WalletToEscrow? && p.delivery.EscrowToNewOwnerStack? && p.credit.EscrowToNewOwnerWallet?
    requires p.create.Some? ==> p.create.value.CreateEmptyStack?
    requires p.completion.Some? ==> p.completion.value.ModifyTradeState?
    requires |m| == 4 && |now| == |step| == 5
  {
    && (if p.create.Some? then StackCreated(b, m[0], p.create.value, created, step[0]) else m[0] == b)
    && IskEscrowed(m[0], m[1], p.debit, p.credit.walletEscrow, now[1], step[1])
    && ItemsReleased(m[1], m[2], p.delivery.escrow, p.delivery.destination, p.delivery.quantity, NewOwner, now[2],
                     step[2])
    && IskReleased(m[2], m[3], p.credit.walletEscrow, p.credit.destinationWallet, p.credit.amount, NewOwner, now[3],
                   step[3])
    && (if p.completion.Some? then TradeClosed(m[3], b1, p.completion.value, now[4]) else b1 == m[3])
  }

  /** The identifier of the stack a plan creates. */
  function CreatedId(p: AcceptPlan, newId: Uuid): Uuid
    requires p.create.Some? ==> p.create.value.CreateEmptyStack?
  {
    if p.create.Some? then IdOr(p.create.value.stackId, newId) else newId
  }

  lemma AcceptTrace(states: seq<Tables>, actor: int, ops: seq<Command>, envs: seq<StepEnv>, batch: Uuid)
    returns (m: seq<Tables>, created: Uuid, now: seq<int>, step: seq<StepId>)
    requires CheckAccept(actor, ops).Ok? && Trace(states, ops, envs, batch)
    ensures |m| == 4 && |now| == |step| == 5
    ensures AcceptSteps(states[0], m, states[|ops|], ReadAccept(ops), created, now, step)
    ensures now[1] == envs[Lead(ops)].now && now[2] == envs[Lead(ops) + 1].now && now[3] == envs[Lead(ops) + 2].now
    ensures ReadAccept(ops).completion.Some? ==> now[4] == envs[Lead(ops) + 3].now
    ensures created == CreatedId(ReadAccept(ops), envs[0].newId)
  {
    hide TradeClosed, StackCreated, IskEscrowed, ItemsReleased, IskReleased, TradeCreated, ItemsEscrowed,
         WalletEscrowCreated, Merged;
    var i := Lead(ops);
    m := [states[i], states[i + 1], states[i + 2], states[i + 3]];
    var last := if |ops| == i + 4 then envs[i + 3].now else 0;
    now := [0, envs[i].now, envs[i + 1].now, envs[i + 2].now, last];
    step := [StepId(batch, 0), StepId(batch, i), StepId(batch, i + 1), StepId(batch, i + 2), StepId(batch, i + 3)];
    created := CreatedId(ReadAccept(ops), envs[0].newId);
    forall j | 0 <= j < |ops|
      ensures Effect(states[j], states[j + 1], ops[j], envs[j], StepId(batch, j))
    {
    }
    assert i == 1 ==> Effect(states[0], states[1], ops[0], envs[0], StepId(batch, 0));
    assert Effect(states[i], states[i + 1], ops[i], envs[i], StepId(batch, i));
    assert Effect(states[i + 1], states[i + 2], ops[i + 1], envs[i + 1], StepId(batch, i + 1));
    assert Effect(states[i + 2], states[i + 3], ops[i + 2], envs[i + 2], StepId(batch, i + 2));
    assert |ops| == i + 4 ==> Effect(states[i + 3], states[i + 4], ops[i + 3], envs[i + 3], StepId(batch, i + 3));
  }

  /** What authorization established about an ACCEPT plan. */
  ghost predicate ExchangeAllowed(b: Tables, actor: int, p: AcceptPlan)
    requires p.debit.WalletToEscrow? && p.delivery.EscrowToNewOwnerStack? && p.credit.EscrowToNewOwnerWallet?
    requires p.create.Some? ==> p.create.value.CreateEmptyStack?
  {
    var t, e, d := p.debit.trade, p.delivery.escrow, p.delivery.destination;
    && p.debit.sourceWallet in b.wallets && b.wallets[p.debit.sourceWallet].owner == actor
    && t in b.trades && b.trades[t].state.Open?
    && e in b.stackEscrows && b.stackEscrows[e].trade == t && b.stackEscrows[e].owner == b.trades[t].issuer
    && !b.stackEscrows[e].released && p.delivery.quantity <= b.stackEscrows[e].quantity
    && p.delivery.quantity <= b.trades[t].remaining
    && FitsI64(p.debit.amount) && p.debit.amount == p.delivery.quantity * b.trades[t].price
    && p.credit.destinationWallet in b.wallets && b.wallets[p.credit.destinationWallet].owner == b.trades[t].issuer
    && (|| (p.create.Some? && p.create.value.stackId == Some(d) && p.create.value.owner == actor)
        || (d in b.stacks && b.stacks[d].owner == actor))
  }

  /** An ACCEPT is authorized exactly when the exchange it describes is allowed. */
  lemma AcceptAuthorized(b: Tables, actor: int, ops: seq<Command>)
    requires CheckAccept(actor, ops).Ok?
    ensures AuthorizeAccept(b, actor, ops).Ok? <==> ExchangeAllowed(b, actor, ReadAccept(ops))
  {
    hide First;
    AcceptFirsts(actor, ops);
    var p := ReadAccept(ops);
    var d := p.delivery.destination;
    assert CreatesDestination(ops, d, actor) <==>
           p.create.Some? && p.create.value.stackId == Some(d) && p.create.value.owner == actor by {
      AcceptGrammar(actor, ops);
      if p.create.Some? && p.create.value.stackId == Some(d) && p.create.value.owner == actor {
        assert ops[0].CreateEmptyStack?;
      }
    }
  }

  lemma AcceptIsk(b: Tables, m: seq<Tables>, b1: Tables, actor: int, p: AcceptPlan, created: Uuid, now: seq<int>,
                  step: seq<StepId>)
    requires AcceptPlanOk(actor, p) && |m| == 4 && |now| == |step| == 5
    requires Sound(b) && ExchangeAllowed(b, actor, p) && AcceptSteps(b, m, b1, p, created, now, step)
    requires actor != b.trades[p.debit.trade].issuer
    ensures Paid(b, b1, actor, p)
  {
    hide Sum, StackPut, StackCreated, ItemsReleased, TradeClosed, Drained, Received, EscrowSound, TradeSound, HasEscrow;
    if p.create.Some? { CreatedKeeps(b, m[0], p.create.value, created, step[0]); }
    DeliveryKeepsIsk(m[1], m[2], p.delivery, now[2], step[2]);
    if p.completion.Some? { ClosedKeeps(m[3], b1, p.completion.value, now[4]); }
    assert b1.wallets == m[3].wallets && b1.walletEscrows == m[3].walletEscrows;
  }

  lemma DeliveryKeepsIsk(b: Tables, b1: Tables, c: Command, now: int, step: StepId)
    requires c.EscrowToNewOwnerStack? && ItemsReleased(b, b1, c.escrow, c.destination, c.quantity, NewOwner, now, step)
    ensures SameIsk(b, b1)
  {
  }

  lemma DebitKeepsItems(b: Tables, b1: Tables, c: Command, id: Uuid, now: int, step: StepId)
    requires c.WalletToEscrow? && IskEscrowed(b, b1, c, id, now, step)
    ensures SameItems(b, b1) && SameTrades(b, b1)
  {
  }

  lemma CreditKeepsItems(b: Tables, b1: Tables, c: Command, now: int, step: StepId)
    requires c.EscrowToNewOwnerWallet?
    requires IskReleased(b, b1, c.walletEscrow, c.destinationWallet, c.amount, NewOwner, now, step)
    ensures SameItems(b, b1) && SameTrades(b, b1)
  {
  }

  lemma ClosedKeeps(b: Tables, b1: Tables, c: Command, now: int)
    requires c.ModifyTradeState? && TradeClosed(b, b1, c, now)
    ensures SameIsk(b, b1) && SameItems(b, b1) && c.toState.Named? && c.trade in b.trades
    ensures b1.trades == b.trades[c.trade := b.trades[c.trade].(state := c.toState.state)]
  {
  }

  lemma CreatedKeeps(b: Tables, b1: Tables, c: Command, id: Uuid, step: StepId)
    requires c.CreateEmptyStack? && StackCreated(b, b1, c, id, step)
    ensures b1.wallets == b.wallets && b1.walletEscrows == b.walletEscrows
    ensures b1.stackEscrows == b.stackEscrows && b1.trades == b.trades
    ensures id !in b.stacks && b1.stacks == b.stacks[id := NewStackRow(id, c.owner, c.itemType, c.station)]
  {
  }

  lemma AcceptItems(b: Tables, m: seq<Tables>, b1: Tables, actor: int, p: AcceptPlan, created: Uuid, now: seq<int>,
                    step: seq<StepId>)
    requires AcceptPlanOk(actor, p) && |m| == 4 && |now| == |step| == 5
    requires ExchangeAllowed(b, actor, p) && AcceptSteps(b, m, b1, p, created, now, step)
    requires p.create.Some? && p.create.value.stackId.Some? ==> created == p.create.value.stackId.value
    ensures Delivered(b, b1, actor, p, created)
  {
    hide Sum, StackCreated, IskEscrowed, IskReleased, TradeClosed, ItemsReleased;
    if p.create.Some? { CreatedKeeps(b, m[0], p.create.value, created, step[0]); }
    DebitKeepsItems(m[0], m[1], p.debit, p.credit.walletEscrow, now[1], step[1]);
    ReleaseDrains(m[1], m[2], p.delivery.escrow, p.delivery.destination, p.delivery.quantity, NewOwner, now[2],
                  step[2]);
    CreditKeepsItems(m[2], m[3], p.credit, now[3], step[3]);
    if p.completion.Some? { ClosedKeeps(m[3], b1, p.completion.value, now[4]); }
    assert b1.stackEscrows == m[2].stackEscrows && b1.stacks == m[2].stacks;
  }

  /** A release drains the escrow into the destination, and obeys its owner rule. */
  lemma ReleaseDrains(b: Tables, b1: Tables, e: Uuid, d: Uuid, q: int, rule: OwnerRule, now: int, step: StepId)
    requires ItemsReleased(b, b1, e, d, q, rule, now, step)
    ensures Drained(b, b1, b.stackEscrows[e].trade, e, q, b.trades[b.stackEscrows[e].trade].state)
    ensures d in b.stacks && Received(b.stacks, b1.stacks, b.stackEscrows[e], d, q, b.stacks[d].owner)
    ensures !b.stackEscrows[e].released
    ensures OwnerRuleHolds(rule, b.stackEscrows[e].owner, b.stacks[d].owner)
    ensures SameIsk(b, b1)
  {
    hide Sum, ExtendsLedger, MakeRecord;
  }

  /** A finished ACCEPT completes the trade only when it takes all that remains. */
  lemma CompletionTakesAll(b: Tables, m: seq<Tables>, b1: Tables, actor: int, p: AcceptPlan, created: Uuid,
                           now: seq<int>, step: seq<StepId>)
    requires AcceptPlanOk(actor, p) && |m| == 4 && |now| == |step| == 5 && p.completion.Some?
    requires Sound(b) && ExchangeAllowed(b, actor, p) && AcceptSteps(b, m, b1, p, created, now, step)
    requires p.create.Some? && p.create.value.stackId.Some? ==> created == p.create.value.stackId.value
    ensures b.trades[p.debit.trade].remaining == p.delivery.quantity
  {
    hide StackPut, WalletPut, StackCreated, ExtendsLedger, MakeRecord, Sum;
    AcceptItems(b, m, b1, actor, p, created, now, step);
    var t, e := p.debit.trade, p.delivery.escrow;
    assert m[3].stackEscrows == b1.stackEscrows;
    forall f | f in b1.stackEscrows && f != e
      ensures ActiveItems(t)(b1.stackEscrows[f]) == 0
    {
      assert f in b.stackEscrows;
    }
    SumSingle(b1.stackEscrows, e, ActiveItems(t));
  }

  lemma AcceptEffect(states: seq<Tables>, actor: int, ops: seq<Command>, envs: seq<StepEnv>, batch: Uuid)
    requires CheckAccept(actor, ops).Ok? && Trace(states, ops, envs, batch)
    requires Sound(states[0]) && ExchangeAllowed(states[0], actor, ReadAccept(ops))
    ensures var p := ReadAccept(ops);
            && Paid(states[0], states[|ops|], actor, p)
            && Delivered(states[0], states[|ops|], actor, p, CreatedId(p, envs[0].newId))
            && (p.completion.Some? ==> states[0].trades[p.debit.trade].remaining == p.delivery.quantity)
  {
    var p, b, b1 := ReadAccept(ops), states[0], states[|ops|];
    hide AcceptSteps, Trace, Sound, Paid;
    var m, created, now, step := AcceptTrace(states, actor, ops, envs, batch);
    AcceptItems(b, m, b1, actor, p, created, now, step);
    AcceptIsk(b, m, b1, actor, p, created, now, step);
    if p.completion.Some? { CompletionTakesAll(b, m, b1, actor, p, created, now, step); }
  }

  lemma AcceptKeepsSound(b: Tables, b1: Tables, actor: int, p: AcceptPlan, created: Uuid)
    requires p.debit.WalletToEscrow? && p.delivery.EscrowToNewOwnerStack? && p.credit.EscrowToNewOwnerWallet?
    requires p.create.Some? ==> p.create.value.CreateEmptyStack?
    requires Sound(b) && Paid(b, b1, actor, p) && Delivered(b, b1, actor, p, created)
    requires b.trades[p.debit.trade].state.Open?
    requires p.completion.Some? ==> b.trades[p.debit.trade].remaining == p.delivery.quantity
    ensures Sound(b1)
  {
    hide Sound;
    assert forall w :: w in b.walletEscrows ==> b.walletEscrows[w].released && b.walletEscrows[w].amount == 0 by {
      NoIskHeld(b);
    }
    DrainKeepsSound(b, b1, p.debit.trade, p.delivery.escrow, p.delivery.quantity,
                    if p.completion.Some? then Completed else Open);
  }

  lemma NoIskHeld(b: Tables)
    requires Sound(b)
    ensures forall w :: w in b.walletEscrows ==> b.walletEscrows[w].released && b.walletEscrows[w].amount == 0
  {
  }

  // ---- CANCEL

  /** A CANCEL the issuer may make in a reachable state: it returns the trade's one escrow if that still holds items. */
  ghost predicate CancelAllowed(b: Tables, actor: int, p: CancelPlan)
    requires p.items.Some? ==> p.items.value.EscrowToPreviousOwnerStack?
    requires p.state.ModifyTradeState?
  {
    var t := p.state.trade;
    && t in b.trades && b.trades[t].issuer == actor && b.trades[t].state.Open?
    && p.isk.None?
    && (p.items.Some? <==> b.trades[t].remaining > 0)
    && (p.items.Some? ==>
        var e, d := p.items.value.escrow, p.items.value.destination;
        e in b.stackEscrows && b.stackEscrows[e].trade == t && d in b.stacks && b.stacks[d].owner == actor)
  }

  lemma ActiveEscrows(b: Tables, t: Uuid)
    requires Sound(b) && t in b.trades
    ensures ActiveWalletEscrows(b, t) == {}
    ensures ActiveStackEscrows(b, t) == if b.trades[t].remaining > 0 then {EscrowOf(b, t)} else {}
  {
    assert EscrowSound(b, b.stackEscrows[EscrowOf(b, t)]);
  }

  lemma ReturnChecked(b: Tables, actor: int, t: Uuid, c: Command)
    requires c.EscrowToPreviousOwnerStack? && Sound(b) && t in b.trades && b.trades[t].issuer == actor
    ensures CheckReturn(b, actor, t, c).Ok? <==>
            && c.escrow in b.stackEscrows && b.stackEscrows[c.escrow].trade == t
            && c.destination in b.stacks && b.stacks[c.destination].owner == actor
            && b.trades[t].remaining > 0
  {
    if c.escrow in b.stackEscrows { assert EscrowSound(b, b.stackEscrows[c.escrow]); }
  }

  lemma IskReturnRefused(b: Tables, actor: int, t: Uuid, c: Command)
    requires c.EscrowToPreviousOwnerWallet? && Sound(b)
    ensures CheckReturn(b, actor, t, c).Err?
  {
  }

  /** In a reachable state a CANCEL is authorized exactly when it is allowed; in particular it returns no ISK. */
  lemma CancelAuthorized(b: Tables, actor: int, ops: seq<Command>)
    requires CheckCancel(ops).Ok? && Sound(b)
    ensures AuthorizeCancel(b, actor, ops).Ok? <==> CancelAllowed(b, actor, ReadCancel(ops))
  {
    hide First, CountReturns, CheckReturn, Sound, ActiveStackEscrows, ActiveWalletEscrows;
    CancelFirst(ops);
    var p := ReadCancel(ops);
    var t := p.state.trade;
    if t in b.trades && b.trades[t].issuer == actor {
      CancelCounts(b, actor, t, ops);
      ActiveEscrows(b, t);
      if p.items.Some? { ReturnChecked(b, actor, t, p.items.value); }
      if p.isk.Some? { IskReturnRefused(b, actor, t, p.isk.value); }
    }
  }

  lemma CancelEffect(states: seq<Tables>, actor: int, ops: seq<Command>, envs: seq<StepEnv>, batch: Uuid)
    requires CheckCancel(ops).Ok? && Trace(states, ops, envs, batch)
    requires Sound(states[0]) && CancelAllowed(states[0], actor, ReadCancel(ops))
    ensures var p, b, b1 := ReadCancel(ops), states[0], states[|ops|];
            && SameIsk(b, b1)
            && if p.items.Some? then
                 var c := p.items.value;
                 && Drained(b, b1, p.state.trade, c.escrow, c.quantity, Cancelled)
                 && Received(b.stacks, b1.stacks, b.stackEscrows[c.escrow], c.destination, c.quantity, actor)
               else
                 && SameItems(b, b1)
                 && b1.trades == b.trades[p.state.trade := b.trades[p.state.trade].(state := Cancelled)]
  {
    hide TradeClosed, StackCreated, IskEscrowed, ItemsReleased, IskReleased, TradeCreated, ItemsEscrowed,
         WalletEscrowCreated, Merged;
    var p, n := ReadCancel(ops), |ops|;
    assert Effect(states[n - 1], states[n], ops[n - 1], envs[n - 1], StepId(batch, n - 1));
    ClosedKeeps(states[n - 1], states[n], p.state, envs[n - 1].now);
    if p.items.Some? {
      var c := p.items.value;
      assert Effect(states[0], states[1], ops[0], envs[0], StepId(batch, 0));
      ReleaseDrains(states[0], states[1], c.escrow, c.destination, c.quantity, PreviousOwner, envs[0].now,
                    StepId(batch, 0));
    }
  }

  /**
   * The deferred constraints accept a finished CANCEL exactly when it returns the whole escrow. A partial
   * return passes authorization and every step, and is undone at commit.
   */
  lemma CancelCommits(b: Tables, b1: Tables, actor: int, p: CancelPlan)
    requires p.items.Some? ==> p.items.value.EscrowToPreviousOwnerStack?
    requires p.state.ModifyTradeState? && Sound(b) && CancelAllowed(b, actor, p) && StackLedgersOk(b1) && SameIsk(b, b1)
    requires if p.items.Some? then
               Drained(b, b1, p.state.trade, p.items.value.escrow, p.items.value.quantity, Cancelled)
             else
               && SameItems(b, b1)
               && b1.trades == b.trades[p.state.trade := b.trades[p.state.trade].(state := Cancelled)]
    ensures CommitOk(b1) <==> (p.items.Some? ==>
                               p.items.value.quantity == b.stackEscrows[p.items.value.escrow].quantity)
    ensures CommitOk(b1) ==> Sound(b1)
  {
    hide StackLedgersOk, Projects;
    NoIskHeld(b);
    var t := p.state.trade;
    if p.items.None? {
      CloseKeepsSound(b, b1, t);
      SoundCommits(b1);
    } else if p.items.value.quantity == b.stackEscrows[p.items.value.escrow].quantity {
      DrainKeepsSound(b, b1, t, p.items.value.escrow, p.items.value.quantity, Cancelled);
      SoundCommits(b1);
    } else {
      var e := p.items.value.escrow;
      SumSingle(b1.stackEscrows, e, ActiveItems(t));
      assert !TradeBalanced(b1, t);
    }
  }

  lemma CloseKeepsSound(b: Tables, b1: Tables, t: Uuid)
    requires Sound(b) && SameIsk(b, b1) && SameItems(b, b1) && t in b.trades && b.trades[t].remaining == 0
    requires b1.trades == b.trades[t := b.trades[t].(state := Cancelled)]
    ensures Sound(b1)
  {
    forall f | f in b1.stackEscrows
      ensures EscrowSound(b1, b1.stackEscrows[f])
    {
      assert EscrowSound(b, b.stackEscrows[f]);
    }
    forall u | u in b1.trades
      ensures TradeSound(b1.trades[u]) && HasEscrow(b1, u)
    {
      var f := EscrowOf(b, u);
      assert b1.stackEscrows[f].trade == u;
    }
  }
}
