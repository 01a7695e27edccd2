/**
 * Accounting over whole runs: every owner's ISK and items change by exactly what the committed ACCEPTs exchanged, and
 * of every trade the units sold, returned and remaining add up to its total.
 */
module Holdings {
  import opened Prelude
  import opened Tables
  import opened Operations
  import opened Effects
  import opened Conservation
  import opened Plans
  import opened Executor
  import opened Runs
  import opened Trades
  import opened Lifecycle

  // ---- what one call exchanges, sells and returns

  /** The call is a committed ACCEPT; its plan can be read off and its trade is known. */
  ghost predicate Buys(db: Database, call: Call) {
    && call.batch.intent == Accept && call.batch.actor.Some? && HasAcceptCore(call.batch.operations)
    && Execute(db, call.batch, call.env).outcome.Committed?
    && var p := ReadAccept(call.batch.operations);
    && p.debit.trade in db.tables.trades && p.delivery.escrow in db.tables.stackEscrows
  }

  /** The ISK a call brings to an owner: the price of the units it buys, from the buyer to the issuer. */
  ghost function IskBrought(db: Database, call: Call, who: int): int {
    if !Buys(db, call) then 0 else
      var p := ReadAccept(call.batch.operations);
      var t := db.tables.trades[p.debit.trade];
      Share(who, call.batch.actor.value, t.issuer, p.delivery.quantity * t.price)
  }

  /** The units of an item type at a station a call brings to an owner, from the issuer to the buyer. */
  ghost function ItemsBrought(db: Database, call: Call, who: int, itemType: int, station: int): int {
    if !Buys(db, call) then 0 else
      var p := ReadAccept(call.batch.operations);
      var t, e := db.tables.trades[p.debit.trade], db.tables.stackEscrows[p.delivery.escrow];
      if e.itemType == itemType && e.station == station
        then Share(who, t.issuer, call.batch.actor.value, p.delivery.quantity) else 0
  }

  /** The units of a trade a call sells. */
  ghost function UnitsSold(db: Database, call: Call, t: Uuid): int {
    if Buys(db, call) && ReadAccept(call.batch.operations).debit.trade == t
    then ReadAccept(call.batch.operations).delivery.quantity else 0
  }

  /** The units of a trade a call returns to the issuer. */
  ghost function UnitsReturned(db: Database, call: Call, t: Uuid): int {
    if call.batch.intent == Cancel && HasCancelCore(call.batch.operations)
       && Execute(db, call.batch, call.env).outcome.Committed?
    then
      var p := ReadCancel(call.batch.operations);
      if p.state.trade == t && p.items.Some? then p.items.value.quantity else 0
    else 0
  }

  // ---- holdings of owners

  predicate MovesBetweenOwners(c: Command) { c.EscrowToNewOwnerStack? || c.EscrowToNewOwnerWallet? }

  /** A run without releases to new owners leaves every owner's holdings as they were. */
  lemma {:induction false} RunKeepsHoldings(b: Tables, ops: seq<Command>, envs: seq<StepEnv>, batch: Uuid, n: nat,
                                            who: int, itemType: int, station: int)
    requires n <= |ops| == |envs| && Run(b, ops, envs, batch, n).Finished?
    requires forall i :: 0 <= i < |ops| ==> !MovesBetweenOwners(ops[i])
    ensures IskOf(Run(b, ops, envs, batch, n).tables, Some(who)) == IskOf(b, Some(who))
    ensures ItemsOf(Run(b, ops, envs, batch, n).tables, Some(who), itemType, station) ==
            ItemsOf(b, Some(who), itemType, station)
  {
    hide Effect, Apply, IskOf, ItemsOf;
    if n > 0 {
      RunStep(b, ops, envs, batch, n);
      RunKeepsHoldings(b, ops, envs, batch, n - 1, who, itemType, station);
      var b0, b1 := Run(b, ops, envs, batch, n - 1).tables, Run(b, ops, envs, batch, n).tables;
      EffectIsk(b0, b1, ops[n - 1], envs[n - 1], StepId(batch, n - 1), Some(who));
      EffectItems(b0, b1, ops[n - 1], envs[n - 1], StepId(batch, n - 1), Some(who), itemType, station);
    }
  }

  lemma StaysWithOwners(batch: Batch)
    requires ValidatePlan(batch).Ok? && (batch.intent == Issue || batch.intent == Cancel)
    ensures forall i :: 0 <= i < |batch.operations| ==> !MovesBetweenOwners(batch.operations[i])
  {
  }

  /** A committed ISSUE or CANCEL leaves every owner's ISK and items as they were. */
  lemma IssueAndCancelKeepHoldings(db: Database, batch: Batch, env: BatchEnv, who: int, itemType: int, station: int)
    requires |env.steps| == |batch.operations| && (batch.intent == Issue || batch.intent == Cancel)
    ensures IskOf(Execute(db, batch, env).db.tables, Some(who)) == IskOf(db.tables, Some(who))
    ensures ItemsOf(Execute(db, batch, env).db.tables, Some(who), itemType, station) ==
            ItemsOf(db.tables, Some(who), itemType, station)
  {
    hide Execute, Run, IskOf, ItemsOf, Prepare, CommitOk, MovesBetweenOwners;
    ExecuteTables(db, batch, env);
    if Execute(db, batch, env).outcome.Committed? {
      StaysWithOwners(batch);
      RunKeepsHoldings(db.tables, batch.operations, env.steps, env.batch, |batch.operations|, who, itemType, station);
    }
  }

  lemma CallMovesHoldings(db: Database, call: Call, who: int, itemType: int, station: int)
    requires Sound(db.tables) && call.batch.intent != Unspecified
    ensures var b1 := Execute(db, call.batch, call.env).db.tables;
            && IskOf(b1, Some(who)) == IskOf(db.tables, Some(who)) + IskBrought(db, call, who)
            && ItemsOf(b1, Some(who), itemType, station)
               == ItemsOf(db.tables, Some(who), itemType, station) + ItemsBrought(db, call, who, itemType, station)
  {
    hide Execute, Sound, IskOf, ItemsOf, Paid, Delivered;
    if call.batch.intent != Accept {
      IssueAndCancelKeepHoldings(db, call.batch, call.env, who, itemType, station);
    } else if Execute(db, call.batch, call.env).outcome.Committed? {
      AcceptIsExactExchange(db, call.batch, call.env, who, itemType, station);
    } else {
      ExecuteTables(db, call.batch, call.env);
    }
  }

  ghost function IskBroughtOver(db: Database, calls: seq<Call>, who: int): int {
    if calls == [] then 0 else
      var n := |calls| - 1;
      IskBroughtOver(db, calls[..n], who) + IskBrought(After(db, calls[..n]), calls[n], who)
  }

  ghost function ItemsBroughtOver(db: Database, calls: seq<Call>, who: int, itemType: int, station: int): int {
    if calls == [] then 0 else
      var n := |calls| - 1;
      ItemsBroughtOver(db, calls[..n], who, itemType, station)
        + ItemsBrought(After(db, calls[..n]), calls[n], who, itemType, station)
  }

  /** Over every served run, each owner's ISK and items change by exactly what the committed ACCEPTs exchanged. */
  lemma {:induction false} RunsMoveHoldings(seeds: map<Uuid, Wallet>, db: Database, calls: seq<Call>, who: int,
                                            itemType: int, station: int)
    requires Reachable(seeds, db.tables) && Served(calls)
    ensures var b := After(db, calls).tables;
            && IskOf(b, Some(who)) == IskOf(db.tables, Some(who)) + IskBroughtOver(db, calls, who)
            && ItemsOf(b, Some(who), itemType, station)
               == ItemsOf(db.tables, Some(who), itemType, station) + ItemsBroughtOver(db, calls, who, itemType, station)
    decreases |calls|
  {
    hide Execute, Books, SourcesOk, Sound, IskOf, ItemsOf, IskBrought, ItemsBrought, Evolves;
    if calls != [] {
      var n := |calls| - 1;
      RunsMoveHoldings(seeds, db, calls[..n], who, itemType, station);
      RunsReachable(seeds, db, calls[..n]);
      CallMovesHoldings(After(db, calls[..n]), calls[n], who, itemType, station);
    }
  }

  // ---- the units of a trade

  lemma CallAccounts(seeds: map<Uuid, Wallet>, db: Database, call: Call, t: Uuid)
    requires Reachable(seeds, db.tables) && call.batch.intent != Unspecified
    ensures var b, b1 := db.tables, Execute(db, call.batch, call.env).db.tables;
            var sold, returned := UnitsSold(db, call, t), UnitsReturned(db, call, t);
            && 0 <= sold && 0 <= returned
            && (t in b.trades ==> t in b1.trades && b.trades[t].remaining == b1.trades[t].remaining + sold + returned)
            && (t !in b.trades ==> sold == 0 && returned == 0)
            && (t !in b.trades && t in b1.trades ==> b1.trades[t].remaining == b1.trades[t].total)
  {
    hide Execute, Books, SourcesOk, Sound, Evolves, PlanDone;
    CallKeepsReachable(seeds, db, call.batch, call.env);
    ExecuteTables(db, call.batch, call.env);
    if Execute(db, call.batch, call.env).outcome.Committed? {
      PlanAccounts(db.tables, Execute(db, call.batch, call.env).db.tables, call.batch, FirstNewId(call.env), t);
    }
  }

  /** The units a finished plan sells and returns, by intent. */
  lemma PlanAccounts(b: Tables, b1: Tables, batch: Batch, newId: Uuid, t: Uuid)
    requires batch.intent != Unspecified && ValidatePlan(batch).Ok? && PlanDone(b, b1, batch, newId)
    ensures var ops := batch.operations;
            match batch.intent
            case Issue =>
              && (t in b.trades ==> t in b1.trades && b1.trades[t] == b.trades[t])
              && (t !in b.trades && t in b1.trades ==> b1.trades[t].remaining == b1.trades[t].total)
            case Accept =>
              var p := ReadAccept(ops);
              && p.debit.trade in b.trades && p.delivery.escrow in b.stackEscrows && 0 < p.delivery.quantity
              && b1.trades.Keys == b.trades.Keys
              && (t in b.trades ==> b.trades[t].remaining == b1.trades[t].remaining
                                    + if t == p.debit.trade then p.delivery.quantity else 0)
            case Cancel =>
              var p := ReadCancel(ops);
              && p.state.trade in b.trades && b1.trades.Keys == b.trades.Keys
              && (p.items.Some? ==> 0 < p.items.value.quantity)
              && (t in b.trades ==> b.trades[t].remaining == b1.trades[t].remaining
                                    + if t == p.state.trade && p.items.Some? then p.items.value.quantity else 0)
  {
    hide Paid, Received, ExchangeAllowed, StacksWith, StackRowAfter;
  }

  ghost function SoldOver(db: Database, calls: seq<Call>, t: Uuid): int {
    if calls == [] then 0 else
      var n := |calls| - 1;
      SoldOver(db, calls[..n], t) + UnitsSold(After(db, calls[..n]), calls[n], t)
  }

  ghost function ReturnedOver(db: Database, calls: seq<Call>, t: Uuid): int {
    if calls == [] then 0 else
      var n := |calls| - 1;
      ReturnedOver(db, calls[..n], t) + UnitsReturned(After(db, calls[..n]), calls[n], t)
  }

  /** Over every served run, what a trade offered is what was sold of it, returned of it and remains of it. */
  lemma {:induction false} RunsAccount(seeds: map<Uuid, Wallet>, db: Database, calls: seq<Call>, t: Uuid)
    requires Reachable(seeds, db.tables) && Served(calls)
    ensures var b := After(db, calls).tables;
            var sold, returned := SoldOver(db, calls, t), ReturnedOver(db, calls, t);
            && 0 <= sold && 0 <= returned
            && (t !in b.trades ==> t !in db.tables.trades && sold == 0 && returned == 0)
            && (t in b.trades ==>
                  (if t in db.tables.trades then db.tables.trades[t].remaining else b.trades[t].total)
                  == b.trades[t].remaining + sold + returned)
    decreases |calls|
  {
    hide Execute, Reachable, UnitsSold, UnitsReturned, EscrowEvolves, StacksEvolve;
    if calls != [] {
      var n := |calls| - 1;
      var before := After(db, calls[..n]);
      RunsAccount(seeds, db, calls[..n], t);
      RunsReachable(seeds, db, calls[..n]);
      CallAccounts(seeds, before, calls[n], t);
      CallKeepsReachable(seeds, before, calls[n].batch, calls[n].env);
    }
  }

  /**
   * From a database without trades, of every trade the units sold, returned and remaining add up to its total: nothing
   * is oversold.
   */
  lemma NothingIsOversold(seeds: map<Uuid, Wallet>, db: Database, calls: seq<Call>, t: Uuid)
    requires Reachable(seeds, db.tables) && db.tables.trades == map[] && Served(calls)
    requires t in After(db, calls).tables.trades
    ensures var trade := After(db, calls).tables.trades[t];
            && SoldOver(db, calls, t) + ReturnedOver(db, calls, t) + trade.remaining == trade.total
            && 0 <= SoldOver(db, calls, t) <= trade.total
  {
    hide Books, SourcesOk, After, SoldOver, ReturnedOver;
    RunsAccount(seeds, db, calls, t);
    RunsReachable(seeds, db, calls);
    assert TradeSound(After(db, calls).tables.trades[t]);
  }
}
