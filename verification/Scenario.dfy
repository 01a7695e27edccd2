/**
 * Two concrete histories of a small database, one seller with a stack and one buyer with ISK: a trade that advertises
 * what its escrow does not hold, and a trade left OPEN with nothing to sell.
 */
module Scenario {
  import opened Prelude
  import opened Tables
  import opened Operations
  import opened Executor
  import opened Ledgers
  import opened Runs
  import opened AuditTrail
  import opened Trades
  import opened Lifecycle
  import opened Messages
  import opened Market

  const SELLER := 1
  const BUYER := 2
  const SELLER_WALLET := Given(1)
  const BUYER_WALLET := Given(2)
  const STACK := Given(3)

  function SeedWallets(): map<Uuid, Wallet> {
    map[SELLER_WALLET := Wallet(SELLER, 0, WalletActive, 1, WalletSum(SELLER_WALLET, 0, 1), Sha256V1),
        BUYER_WALLET := Wallet(BUYER, 100, WalletActive, 1, WalletSum(BUYER_WALLET, 100, 1), Sha256V1)]
  }

  /** Three units of item type 7 at station 5. */
  function SeedStack(): Stack { Stack(SELLER, 7, 5, 3, StackActive, 1, StackSum(STACK, 3, 1), Sha256V1) }

  function SeedTables(): Tables {
    var entry := StackEntry(StepId(Given(0), 0), 1, 7, SELLER, 5, CreateStack, 3, 0, 3, None, StackActive, 0, 1,
                            GenesisSum,
                            StackSum(STACK, 3, 1));
    Tables(SeedWallets(), map[], map[STACK := SeedStack()], map[], map[], map[],
           map[STACK := [StackRecord(entry, GenesisHash, Link(GenesisHash, entry))]], [])
  }

  function SeedDatabase(): Database { Database(SeedTables(), Audit(map[], map[], map[], map[], map[])) }

  lemma SeedIsReachable()
    ensures Reachable(SeedWallets(), SeedTables())
  {
    var b := SeedTables();
    var records := b.stackLedger[STACK];
    assert Continues(records, 0);
    assert StackChain(RowsOf(b.stackLedger, STACK), b.stacks[STACK]);
    assert Books(SeedWallets(), b);
    SeedsAreReachable(SeedWallets(), b);
  }

  /** A call's environment: `n` steps at time zero, with identifiers of its own. */
  function EnvOf(n: nat, batch: nat): BatchEnv {
    BatchEnv(Given(batch), Given(batch), seq(n, _ => StepEnv(0, Given(batch))))
  }

  // ---- a trade that advertises something else

  /** An ISSUE that names item type 9 for the stack of type 7. */
  function MisnamedIssue(): IssueInput { IssueInput("a", "", SELLER, STACK, SELLER, 9, 5, 3, 3, 10, None, None, None) }

  /** It commits, and the trade advertises what its escrow does not hold. */
  lemma MisnamedIssueCommits()
    ensures var r := Execute(SeedDatabase(), IssueBatch(MisnamedIssue(), Given(20)), EnvOf(2, 10));
            && r.outcome.Committed?
            && var t := Derived("a", TradeInstance);
            t in r.db.tables.trades && !Advertised(r.db.tables, t)
  {
    hide Execute, Reachable, Advertised;
    SeedIsReachable();
    var batch := IssueBatch(MisnamedIssue(), Given(20));
    MarketIssueCommits(SeedWallets(), SeedDatabase(), MisnamedIssue(), Given(20), EnvOf(2, 10));
    AdvertisedAsHeld(SeedWallets(), SeedDatabase(), batch, EnvOf(2, 10), []);
  }

  // ---- a trade left open and empty

  function GoodIssue(): IssueInput { IssueInput("a", "", SELLER, STACK, SELLER, 7, 5, 3, 3, 10, None, None, None) }
  function IssueCall(): AnyCall { AnyCall(IssueBatch(GoodIssue(), Given(20)), EnvOf(2, 10)) }
  ghost function Issued1(): Database { Execute(SeedDatabase(), IssueCall().batch, IssueCall().env).db }

  /** The snapshot both buyers plan from: three units at 10 ISK. */
  function Seen(): TradeSnapshot {
    TradeSnapshot(Derived("a", TradeInstance), Open, SELLER, 7, 5, 10, None, Derived("a", ItemStackEscrow), 3, false,
                  STACK)
  }

  function One(): AcceptRequest { AcceptRequest("b", "", BUYER, 1, BUYER_WALLET, None) }
  function Two(): AcceptRequest { AcceptRequest("c", "", BUYER, 2, BUYER_WALLET, None) }
  function FirstAccept(): AnyCall { AnyCall(AcceptBatch(Seen(), One(), SELLER_WALLET, 10, Given(21)), EnvOf(4, 11)) }
  function SecondAccept(): AnyCall { AnyCall(AcceptBatch(Seen(), Two(), SELLER_WALLET, 20, Given(22)), EnvOf(4, 12)) }

  lemma IssueStage()
    ensures Execute(SeedDatabase(), IssueCall().batch, IssueCall().env).outcome.Committed?
    ensures var b, a, t, e := Issued1().tables, Issued1().audit, Derived("a", TradeInstance),
            Derived("a", ItemStackEscrow);
            && Reachable(SeedWallets(), b)
            && b.trades == map[t := Trade(Open, SELLER, 7, 5, 3, 3, 10, None)]
            && b.stackEscrows == map[e := StackEscrow(t, SELLER, STACK, 7, 5, 3, false)]
            && b.wallets == SeedWallets() && b.walletEscrows == map[]
            && b.stacks == map[STACK := StackRowAfter(STACK, SeedStack(), 0, StackActive)]
            && a.keys.Keys == {"a"} && a.attempts.Keys == {Given(20)} && a.batches.Keys == {Given(10)}
            && a.steps.Keys == {Given(10)}
  {
    hide Execute, Books, Sound, SourcesOk, Evolves;
    SeedIsReachable();
    var db, batch, env := SeedDatabase(), IssueCall().batch, IssueCall().env;
    MarketIssueCommits(SeedWallets(), db, GoodIssue(), Given(20), env);
    CallKeepsReachable(SeedWallets(), db, batch, env);
    CommittedUses(db, batch, env);
    var e := CommittedIssue(SeedWallets(), db, batch, env);
    assert e == Derived("a", ItemStackEscrow);
  }

  /** A CANCEL of that trade that returns one of its three units is undone at commit. */
  lemma PartialReturnIsUndone()
    ensures var batch := CancelBatch(Seen().(escrowQuantity := 1), CancelRequest("d", "", SELLER), Given(23));
            |batch.operations| == 2 && Execute(Issued1(), batch, EnvOf(2, 13)) == Executed(Issued1(), CommitRefused)
  {
    hide Execute, Reachable;
    IssueStage();
    var s, m := Seen().(escrowQuantity := 1), CancelRequest("d", "", SELLER);
    CancelBatchReads(s, m, Given(23));
    PartialCancelIsRefused(SeedWallets(), Issued1(), s, m, Given(23), EnvOf(2, 13));
  }

  ghost function Bought1(): Database { Execute(Issued1(), FirstAccept().batch, FirstAccept().env).db }

  lemma FirstCommits()
    ensures SnapshotOf(Issued1().tables, Seen())
    ensures Execute(Issued1(), FirstAccept().batch, FirstAccept().env).outcome.Committed?
  {
    hide Execute, Reachable;
    IssueStage();
    IskAmountIsExact(1, 10);
    MarketAcceptCommits(SeedWallets(), Issued1(), Seen(), One(), SELLER_WALLET, Given(21), FirstAccept().env);
  }

  lemma FirstStage()
    ensures var b, a, t, e := Bought1().tables, Bought1().audit, Derived("a", TradeInstance),
            Derived("a", ItemStackEscrow);
            && Reachable(SeedWallets(), b)
            && b.trades == map[t := Trade(Open, SELLER, 7, 5, 3, 2, 10, None)]
            && b.stackEscrows == map[e := StackEscrow(t, SELLER, STACK, 7, 5, 2, false)]
            && b.wallets.Keys == {SELLER_WALLET, BUYER_WALLET}
            && b.wallets[SELLER_WALLET] == WalletRowAfter(SELLER_WALLET, SeedWallets()[SELLER_WALLET], 10)
            && b.wallets[BUYER_WALLET] == WalletRowAfter(BUYER_WALLET, SeedWallets()[BUYER_WALLET], 90)
            && b.walletEscrows.Keys == {Derived("b", BuyerWalletEscrow)}
            && b.stacks.Keys == {STACK, Derived("b", BuyerDestination)}
            && a.keys.Keys == {"a", "b"} && a.attempts.Keys == {Given(20), Given(21)}
            && a.batches.Keys == {Given(10), Given(11)} && a.steps.Keys == {Given(10), Given(11)}
  {
    hide Execute, Books, Sound, SourcesOk, Evolves;
    IssueStage();
    FirstCommits();
    var db, batch, env := Issued1(), FirstAccept().batch, FirstAccept().env;
    CallKeepsReachable(SeedWallets(), db, batch, env);
    AcceptBatchReads(Seen(), One(), SELLER_WALLET, 10, Given(21));
    CommittedUses(db, batch, env);
  }

  /** The calls carry one environment entry per operation. */
  lemma CallsFit()
    ensures |IssueCall().env.steps| == |IssueCall().batch.operations|
    ensures |FirstAccept().env.steps| == |FirstAccept().batch.operations|
    ensures |SecondAccept().env.steps| == |SecondAccept().batch.operations|
  {
  }

  /**
   * ISSUE of three units, an ACCEPT of one planned from the snapshot, then an ACCEPT of two planned from the same
   * snapshot.
   */
  ghost function History(): seq<Call> {
    CallsFit();
    [IssueCall(), FirstAccept(), SecondAccept()]
  }

  /**
   * In that history all three batches commit, and the trade ends OPEN with nothing remaining; Market neither accepts
   * nor cancels it.
   */
  lemma HistoryStrandsTrade(later: TradeSnapshot, quantity: int, now: int, actor: int)
    ensures var b, t := After(SeedDatabase(), History()).tables, Derived("a", TradeInstance);
            && Served(History())
            && t in b.trades && b.trades[t].state.Open? && b.trades[t].remaining == 0
            && (SnapshotOf(b, later) && later.trade == t ==>
                  CheckAcceptable(later, quantity, now).Err? && CheckCancellable(later, actor).Err?)
  {
    hide Execute, Reachable, CheckAcceptable, CheckCancellable;
    CallsFit();
    IssueStage();
    FirstCommits();
    FirstStage();
    var first: Call := FirstAccept();
    assert [first][..0] == [];
    assert After(Issued1(), [first][..0]) == Issued1();
    assert After(Issued1(), [first]) == Bought1();
    IskAmountIsExact(2, 10);
    StaleAcceptStrandsTrade(SeedWallets(), Issued1(), [first], Seen(), Two(), SELLER_WALLET, Given(22),
                            SecondAccept().env,
                            later, quantity, now, actor);
    HistoryUnfolds();
  }

  lemma HistoryUnfolds()
    ensures After(SeedDatabase(), History()) == Execute(Bought1(), SecondAccept().batch, SecondAccept().env).db
  {
    hide Execute;
    CallsFit();
    var h := History();
    assert h[..2][..1] == h[..1] && h[..1][..0] == [];
    assert After(SeedDatabase(), h[..1]) == Issued1();
    assert After(SeedDatabase(), h[..2]) == Bought1();
  }
}
