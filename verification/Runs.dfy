/** What every run of batches keeps, whatever the batches contain: conservation, amount ranges and ledgers. */
module Runs {
  import opened Prelude
  import opened Tables
  import opened Operations
  import opened Effects
  import opened Plans
  import opened Executor
  import opened Conservation
  import opened Ledgers

  datatype AnyCall = AnyCall(batch: Batch, env: BatchEnv)
  type Call = c: AnyCall | |c.env.steps| == |c.batch.operations|
    witness AnyCall(Batch(Unspecified, "", None, None, None, [], None), BatchEnv(Given(0), Given(0), []))

  /** The database after a sequence of calls. */
  ghost function After(db: Database, calls: seq<Call>): Database {
    if calls == [] then db else
      var last := calls[|calls| - 1];
      Execute(After(db, calls[..|calls| - 1]), last.batch, last.env).db
  }

  /** The last step of a finished run had its command's effect. */
  lemma RunStep(b: Tables, ops: seq<Command>, envs: seq<StepEnv>, batch: Uuid, n: nat)
    requires 0 < n <= |ops| == |envs| && Run(b, ops, envs, batch, n).Finished?
    ensures Run(b, ops, envs, batch, n - 1).Finished?
    ensures Effect(Run(b, ops, envs, batch, n - 1).tables, Run(b, ops, envs, batch, n).tables, ops[n - 1], envs[n - 1],
                   StepId(batch, n - 1))
  {
    hide Apply, Effect;
    ApplyEffect(Run(b, ops, envs, batch, n - 1).tables, ops[n - 1], envs[n - 1], StepId(batch, n - 1));
  }

  /** Only a committed call changes the tables, and it leaves them as its run and the deferred constraints require. */
  lemma ExecuteTables(db: Database, batch: Batch, env: BatchEnv)
    requires |env.steps| == |batch.operations|
    ensures var r := Execute(db, batch, env);
            if r.outcome.Committed? then
              && Admit(db.audit, batch).Start? && Prepare(db, batch, env).Ok?
              && RunAll(db, batch, env).Finished? && RunAll(db, batch, env).tables == r.db.tables
              && CommitOk(r.db.tables)
            else r.db.tables == db.tables
  {
    hide Run, CommitOk, Prepare, AttemptAudit;
  }

  // ---- what all rows satisfy in every run

  ghost predicate Books(seeds: map<Uuid, Wallet>, b: Tables) {
    AmountsInRange(b) && WalletLedgersOk(seeds, b) && StackLedgersOk(b)
  }

  lemma {:induction false} RunKeepsBooks(seeds: map<Uuid, Wallet>, b: Tables, ops: seq<Command>, envs: seq<StepEnv>,
                                         batch: Uuid, n: nat)
    requires n <= |ops| == |envs| && Run(b, ops, envs, batch, n).Finished? && Books(seeds, b)
    ensures Books(seeds, Run(b, ops, envs, batch, n).tables)
  {
    hide Effect, Apply, AmountsInRange, WalletLedgersOk, StackLedgersOk;
    if n > 0 {
      RunStep(b, ops, envs, batch, n);
      RunKeepsBooks(seeds, b, ops, envs, batch, n - 1);
      var b0, b1 := Run(b, ops, envs, batch, n - 1).tables, Run(b, ops, envs, batch, n).tables;
      BooksStep(seeds, b0, b1, ops[n - 1], envs[n - 1], StepId(batch, n - 1));
    }
  }

  lemma BooksStep(seeds: map<Uuid, Wallet>, b: Tables, b1: Tables, c: Command, env: StepEnv, step: StepId)
    requires Books(seeds, b) && Effect(b, b1, c, env, step)
    ensures Books(seeds, b1)
  {
    hide Effect, ItemAmountsInRange, IskAmountsInRange, WalletLedgersOk, StackLedgersOk;
    EffectItemAmounts(b, b1, c, env, step);
    EffectIskAmounts(b, b1, c, env, step);
    EffectKeepsWalletLedgers(seeds, b, b1, c, env, step);
    EffectKeepsStackLedgers(b, b1, c, env, step);
  }

  lemma {:induction false} RunConserves(b: Tables, ops: seq<Command>, envs: seq<StepEnv>, batch: Uuid, n: nat,
                                        itemType: int, station: int)
    requires n <= |ops| == |envs| && Run(b, ops, envs, batch, n).Finished?
    ensures IskOf(Run(b, ops, envs, batch, n).tables, None) == IskOf(b, None)
    ensures ItemsOf(Run(b, ops, envs, batch, n).tables, None, itemType, station) == ItemsOf(b, None, itemType, station)
  {
    hide Effect, Apply, IskOf, ItemsOf;
    if n > 0 {
      RunStep(b, ops, envs, batch, n);
      RunConserves(b, ops, envs, batch, n - 1, itemType, station);
      var b0, b1 := Run(b, ops, envs, batch, n - 1).tables, Run(b, ops, envs, batch, n).tables;
      ConserveStep(b0, b1, ops[n - 1], envs[n - 1], StepId(batch, n - 1), itemType, station);
    }
  }

  lemma ConserveStep(b: Tables, b1: Tables, c: Command, env: StepEnv, step: StepId, itemType: int, station: int)
    requires Effect(b, b1, c, env, step)
    ensures IskOf(b1, None) == IskOf(b, None)
    ensures ItemsOf(b1, None, itemType, station) == ItemsOf(b, None, itemType, station)
  {
    EffectIsk(b, b1, c, env, step, None);
    EffectItems(b, b1, c, env, step, None, itemType, station);
  }

  /**
   * Over every run of batches, succeeding or failing, total ISK is constant and so is the total quantity
   * of every item type at every station.
   */
  lemma {:induction false} RunsConserve(db: Database, calls: seq<Call>, itemType: int, station: int)
    ensures IskOf(After(db, calls).tables, None) == IskOf(db.tables, None)
    ensures ItemsOf(After(db, calls).tables, None, itemType, station) == ItemsOf(db.tables, None, itemType, station)
    decreases |calls|
  {
    hide Execute, IskOf, ItemsOf, Run;
    if calls != [] {
      var last := calls[|calls| - 1];
      var before := After(db, calls[..|calls| - 1]);
      RunsConserve(db, calls[..|calls| - 1], itemType, station);
      ExecuteTables(before, last.batch, last.env);
      if Execute(before, last.batch, last.env).outcome.Committed? {
        RunConserves(before.tables, last.batch.operations, last.env.steps, last.env.batch, |last.batch.operations|,
                     itemType, station);
      }
    }
  }

  /** Over every run, amounts stay 64-bit and non-negative, and every ledger replays to its row. */
  lemma {:induction false} RunsKeepBooks(seeds: map<Uuid, Wallet>, db: Database, calls: seq<Call>)
    requires Books(seeds, db.tables)
    ensures Books(seeds, After(db, calls).tables)
    decreases |calls|
  {
    hide Execute, Books, Run;
    if calls != [] {
      var last := calls[|calls| - 1];
      var before := After(db, calls[..|calls| - 1]);
      RunsKeepBooks(seeds, db, calls[..|calls| - 1]);
      ExecuteTables(before, last.batch, last.env);
      if Execute(before, last.batch, last.env).outcome.Committed? {
        RunKeepsBooks(seeds, before.tables, last.batch.operations, last.env.steps, last.env.batch,
                      |last.batch.operations|);
      }
    }
  }

  /**
   * Over every run, each wallet's seeded amount plus its ledger's deltas is its current amount, and each stack's ledger
   * replays from nothing to its current quantity, with one entry per version.
   */
  lemma LedgersReplay(seeds: map<Uuid, Wallet>, db: Database, calls: seq<Call>, id: Uuid)
    requires Books(seeds, db.tables)
    ensures var b := After(db, calls).tables;
            && (id in b.wallets ==>
                  && id in seeds && seeds[id].amount + WalletDeltas(RowsOf(b.walletLedger, id)) == b.wallets[id].amount
                  && seeds[id].version + |RowsOf(b.walletLedger, id)| == b.wallets[id].version)
            && (id in b.stacks ==>
                  StackDeltas(RowsOf(b.stackLedger, id)) == b.stacks[id].quantity
                    && |RowsOf(b.stackLedger, id)| == b.stacks[id].version)
  {
    hide After, WalletChain, StackChain;
    RunsKeepBooks(seeds, db, calls);
    var b := After(db, calls).tables;
    if id in b.wallets { WalletReplays(RowsOf(b.walletLedger, id), seeds[id], b.wallets[id]); }
    if id in b.stacks { StackReplays(RowsOf(b.stackLedger, id), b.stacks[id]); }
  }
}
