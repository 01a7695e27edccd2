/** The log of trade state changes: over every run, one entry for each closed trade and none for an open one. */
module ChangeLog {
  import opened Prelude
  import opened MapSums
  import opened Tables
  import opened Operations
  import opened Effects
  import opened Executor
  import opened Runs

  /** The changes of one trade, in order. */
  function ChangesOf(log: seq<StateChange>, t: Uuid): seq<StateChange> {
    if log == [] then [] else
      ChangesOf(log[..|log| - 1], t) + (if log[|log| - 1].trade == t then [log[|log| - 1]] else [])
  }

  /** A closed trade was closed once, from OPEN to the state it is in; an open or unknown one was never changed. */
  predicate LoggedOnce(b: Tables, t: Uuid) {
    var changes := ChangesOf(b.stateChanges, t);
    if t in b.trades && !b.trades[t].state.Open? then
      |changes| == 1 && changes[0].from.Open? && changes[0].to == b.trades[t].state
    else changes == []
  }

  ghost predicate ChangesLogged(b: Tables) { forall t :: LoggedOnce(b, t) }

  lemma OneMoreChange(log: seq<StateChange>, change: StateChange, t: Uuid)
    ensures ChangesOf(log + [change], t) == ChangesOf(log, t) + if change.trade == t then [change] else []
  {
    assert (log + [change])[..|log|] == log;
  }

  lemma EffectLogsChanges(b: Tables, b1: Tables, c: Command, env: StepEnv, step: StepId, t: Uuid)
    requires LoggedOnce(b, t) && Effect(b, b1, c, env, step)
    ensures LoggedOnce(b1, t)
  {
    hide Sum, StackPut, WalletPut, ChangesOf, ExtendsLedger, MakeRecord;
    if c.ModifyTradeState? {
      OneMoreChange(b.stateChanges, b1.stateChanges[|b.stateChanges|], t);
    } else {
      assert b1.stateChanges == b.stateChanges;
    }
  }

  lemma {:induction false} RunLogsChanges(b: Tables, ops: seq<Command>, envs: seq<StepEnv>, batch: Uuid, n: nat,
                                          t: Uuid)
    requires n <= |ops| == |envs| && Run(b, ops, envs, batch, n).Finished? && LoggedOnce(b, t)
    ensures LoggedOnce(Run(b, ops, envs, batch, n).tables, t)
  {
    hide Effect, Apply, LoggedOnce;
    if n > 0 {
      RunStep(b, ops, envs, batch, n);
      RunLogsChanges(b, ops, envs, batch, n - 1, t);
      var b0, b1 := Run(b, ops, envs, batch, n - 1).tables, Run(b, ops, envs, batch, n).tables;
      EffectLogsChanges(b0, b1, ops[n - 1], envs[n - 1], StepId(batch, n - 1), t);
    }
  }

  /**
   * Over every run of batches, whatever they contain, the log has exactly one entry for each closed trade and none for
   * an open one.
   */
  lemma {:induction false} RunsLogChanges(db: Database, calls: seq<Call>)
    requires ChangesLogged(db.tables)
    ensures ChangesLogged(After(db, calls).tables)
    decreases |calls|
  {
    hide Execute, Run, LoggedOnce;
    if calls != [] {
      var last := calls[|calls| - 1];
      var before := After(db, calls[..|calls| - 1]);
      RunsLogChanges(db, calls[..|calls| - 1]);
      ExecuteTables(before, last.batch, last.env);
      if Execute(before, last.batch, last.env).outcome.Committed? {
        forall t ensures LoggedOnce(After(db, calls).tables, t) {
          RunLogsChanges(before.tables, last.batch.operations, last.env.steps, last.env.batch, |last.batch.operations|,
                         t);
        }
      }
    }
  }
}
