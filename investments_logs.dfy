/**
 * The investment-log hook: it fetches every `Invested` and `Redeemed` event of
 * the portfolio contract and folds them, in the order they were fetched, into a
 * running USDC cost basis and a running PMT unit count (average-cost policy:
 * a redemption removes the burned units at the current average cost per unit).
 */
module InvestmentsLogs {
  import opened Wrappers
  import opened JsNumber
  import opened Scales

  type Address = string

  /** The decoded arguments of one event; amounts are raw uint256 values. */
  datatype Event =
    | Invested(investor: Address, usdcAmount: nat, tokensMinted: nat)
    | Redeemed(investor: Address, usdcAmount: nat, tokensBurned: nat)

  /** One fetched log. */
  datatype Log = Log(blockNumber: nat, transactionHash: string, event: Event)

  /** The two accumulators: cost basis in whole USDC and PMT units in whole tokens. */
  datatype Totals = Totals(totalUSDCCost: Num, totalPMTAcquired: real)

  /** Both accumulators start at 0 on every fetch. */
  const Initial: Totals := Totals(Fin(0.0), 0.0)

  /** The first block of the log query (the contract's deployment block). */
  const FROM_BLOCK: nat := 5916208

  /** The filter of the `getLogs` call: contract events from a block on, optionally for one investor. */
  datatype LogQuery = LogQuery(fromBlock: nat, investor: Option<Address>)

  /** The query the hook issues: no investor argument is given. */
  const InvestmentsQuery: LogQuery := LogQuery(FROM_BLOCK, None)

  predicate Matches(q: LogQuery, log: Log)
  {
    log.blockNumber >= q.fromBlock && (q.investor.None? || q.investor.value == log.event.investor)
  }

  /**
   * The hook's query selects a log by its block alone: every investor's events
   * from the deployment block on, not only the connected wallet's.
   */
  lemma QueryHasNoInvestorFilter(log: Log, other: Address)
    ensures Matches(InvestmentsQuery, log) <==> log.blockNumber >= FROM_BLOCK
    ensures Matches(InvestmentsQuery, log) <==> Matches(InvestmentsQuery, log.(event := log.event.(investor := other)))
  {
  }

  /** The effect of one log on the accumulators (the body of the `forEach`). */
  function Step(t: Totals, log: Log): Totals
  {
    match log.event
    case Invested(_, usdc, minted) =>
      Totals(Add(t.totalUSDCCost, Fin(usdc as real / USDC_UNIT)),
             t.totalPMTAcquired + minted as real / PMT_UNIT)
    case Redeemed(_, _, burned) =>
      var tokensBurned := burned as real / PMT_UNIT;
      var averageCostPerToken := Div(t.totalUSDCCost, Fin(t.totalPMTAcquired));
      var redeemedUSDValue := Mul(Fin(tokensBurned), averageCostPerToken);
      Totals(Sub(t.totalUSDCCost, redeemedUSDValue), t.totalPMTAcquired - tokensBurned)
  }

  /** Left fold of `Step` over the logs in the order given, starting from `t`. */
  function FoldFrom(t: Totals, logs: seq<Log>): Totals
    decreases |logs|
  {
    if |logs| == 0 then t else FoldFrom(Step(t, logs[0]), logs[1..])
  }

  /** The totals the hook computes for one fetch. */
  function Reconciled(logs: seq<Log>): Totals
  {
    FoldFrom(Initial, logs)
  }

  /** The `forEach` loop of `fetchLogs` with its two local accumulators. */
  method Reconcile(logs: seq<Log>) returns (totalUSDCCost: Num, totalPMTAcquired: real)
    ensures Totals(totalUSDCCost, totalPMTAcquired) == Reconciled(logs)
  {
    totalUSDCCost, totalPMTAcquired := Fin(0.0), 0.0;
    var i := 0;
    while i < |logs|
      invariant 0 <= i <= |logs|
      invariant FoldFrom(Totals(totalUSDCCost, totalPMTAcquired), logs[i..]) == Reconciled(logs)
    {
      var log := logs[i];
      var tokensMinted := if log.event.Invested? then log.event.tokensMinted as real / PMT_UNIT else 0.0;
      var tokensBurned := if log.event.Redeemed? then log.event.tokensBurned as real / PMT_UNIT else 0.0;
      var usdcAmount := log.event.usdcAmount as real / USDC_UNIT;
      if log.event.Invested? {
        totalUSDCCost := Add(totalUSDCCost, Fin(usdcAmount));
        totalPMTAcquired := totalPMTAcquired + tokensMinted;
      } else {
        var averageCostPerToken := Div(totalUSDCCost, Fin(totalPMTAcquired));
        var redeemedUSDValue := Mul(Fin(tokensBurned), averageCostPerToken);
        totalUSDCCost := Sub(totalUSDCCost, redeemedUSDValue);
        totalPMTAcquired := totalPMTAcquired - tokensBurned;
      }
      assert logs[i..][1..] == logs[i + 1..];
      i := i + 1;
    }
  }

  /** Folding a concatenation is folding the second part from the totals of the first. */
  lemma {:induction false} FoldFromAppend(t: Totals, xs: seq<Log>, ys: seq<Log>)
    ensures FoldFrom(t, xs + ys) == FoldFrom(FoldFrom(t, xs), ys)
    decreases |xs|
  {
    if |xs| == 0 {
      assert xs + ys == ys;
    } else {
      assert (xs + ys)[1..] == xs[1..] + ys;
      FoldFromAppend(Step(t, xs[0]), xs[1..], ys);
    }
  }

  /** No events: the cost basis and the unit count stay 0. */
  lemma ReconciledEmpty()
    ensures Reconciled([]) == Totals(Fin(0.0), 0.0)
  {
  }

  predicate AllInvested(logs: seq<Log>)
  {
    forall k :: 0 <= k < |logs| ==> logs[k].event.Invested?
  }

  /** The sum of the raw `usdcAmount` arguments of the logs. */
  function SumUsdcAmount(logs: seq<Log>): nat
  {
    if |logs| == 0 then 0 else logs[0].event.usdcAmount + SumUsdcAmount(logs[1..])
  }

  /** The sum of the raw `tokensMinted` arguments of the `Invested` logs. */
  function SumTokensMinted(logs: seq<Log>): nat
  {
    if |logs| == 0 then 0
    else (if logs[0].event.Invested? then logs[0].event.tokensMinted else 0) + SumTokensMinted(logs[1..])
  }

  lemma {:induction false} InvestedOnlyFrom(c: real, u: real, logs: seq<Log>)
    requires AllInvested(logs)
    ensures FoldFrom(Totals(Fin(c), u), logs)
         == Totals(Fin(c + SumUsdcAmount(logs) as real / USDC_UNIT), u + SumTokensMinted(logs) as real / PMT_UNIT)
    decreases |logs|
  {
    if |logs| > 0 {
      var e := logs[0].event;
      assert AllInvested(logs[1..]) by {
        forall k | 0 <= k < |logs[1..]| ensures logs[1..][k].event.Invested? {
          assert logs[1..][k] == logs[k + 1];
        }
      }
      InvestedOnlyFrom(c + e.usdcAmount as real / USDC_UNIT, u + e.tokensMinted as real / PMT_UNIT, logs[1..]);
    }
  }

  /** Only investments: the cost basis is the sum of the USDC paid and the units the sum minted. */
  lemma InvestedOnlyTotals(logs: seq<Log>)
    requires AllInvested(logs)
    ensures Reconciled(logs)
         == Totals(Fin(SumUsdcAmount(logs) as real / USDC_UNIT), SumTokensMinted(logs) as real / PMT_UNIT)
  {
    InvestedOnlyFrom(0.0, 0.0, logs);
  }

  /**
   * A redemption lowers the units by exactly the burned amount, and its own
   * `usdcAmount` has no effect on either total.
   */
  lemma RedemptionIgnoresItsUsdcAmount(t: Totals, block: nat, hash: string, investor: Address,
                                       usdcA: nat, usdcB: nat, burned: nat)
    ensures Step(t, Log(block, hash, Redeemed(investor, usdcA, burned)))
         == Step(t, Log(block, hash, Redeemed(investor, usdcB, burned)))
    ensures Step(t, Log(block, hash, Redeemed(investor, usdcA, burned))).totalPMTAcquired
         == t.totalPMTAcquired - burned as real / PMT_UNIT
  {
  }

  /**
   * A redemption with a finite cost basis and units held keeps the average cost
   * per unit, whenever some units remain.
   */
  lemma RedemptionKeepsAverageCost(t: Totals, log: Log)
    requires log.event.Redeemed? && t.totalUSDCCost.Fin? && t.totalPMTAcquired != 0.0
    requires Step(t, log).totalPMTAcquired != 0.0
    ensures Step(t, log).totalUSDCCost.Fin?
    ensures Step(t, log).totalUSDCCost.value / Step(t, log).totalPMTAcquired
         == t.totalUSDCCost.value / t.totalPMTAcquired
  {
    var c, u := t.totalUSDCCost.value, t.totalPMTAcquired;
    var b := log.event.tokensBurned as real / PMT_UNIT;
    var avg := c / u;
    assert Step(t, log) == Totals(Fin(c - b * avg), u - b);
    assert c == avg * u;
    assert c - b * avg == avg * (u - b);
  }

  /**
   * A redemption when no units are held divides by zero: the cost basis turns
   * into NaN (nothing held, or nothing burned) or into an infinity of the
   * opposite sign of the cost basis.
   */
  lemma RedemptionWithoutUnits(t: Totals, log: Log)
    requires log.event.Redeemed? && t.totalUSDCCost.Fin? && t.totalPMTAcquired == 0.0
    ensures !Step(t, log).totalUSDCCost.Fin?
    ensures Step(t, log).totalUSDCCost
         == if t.totalUSDCCost.value == 0.0 || log.event.tokensBurned == 0 then NaN
            else Inf(t.totalUSDCCost.value < 0.0)
    ensures Step(t, log).totalPMTAcquired == -(log.event.tokensBurned as real / PMT_UNIT)
  {
  }

  /** Once the cost basis is NaN or infinite, no later log makes it finite again. */
  lemma {:induction false} NonFiniteCostPersists(t: Totals, logs: seq<Log>)
    requires !t.totalUSDCCost.Fin?
    ensures !FoldFrom(t, logs).totalUSDCCost.Fin?
    decreases |logs|
  {
    if |logs| > 0 {
      NonFiniteCostPersists(Step(t, logs[0]), logs[1..]);
    }
  }

  /** A redemption that finds units held and burns no more than them. */
  predicate Covered(t: Totals, log: Log)
  {
    log.event.Redeemed? ==>
      0.0 < t.totalPMTAcquired && log.event.tokensBurned as real / PMT_UNIT <= t.totalPMTAcquired
  }

  /** Every redemption in `logs`, replayed from `t`, is covered. */
  predicate AllCovered(t: Totals, logs: seq<Log>)
    decreases |logs|
  {
    |logs| == 0 || (Covered(t, logs[0]) && AllCovered(Step(t, logs[0]), logs[1..]))
  }

  predicate NonNegative(t: Totals)
  {
    t.totalUSDCCost.Fin? && t.totalUSDCCost.value >= 0.0 && t.totalPMTAcquired >= 0.0
  }

  lemma StepKeepsNonNegative(t: Totals, log: Log)
    requires NonNegative(t) && Covered(t, log)
    ensures NonNegative(Step(t, log))
  {
    if log.event.Redeemed? {
      var c, u := t.totalUSDCCost.value, t.totalPMTAcquired;
      var b := log.event.tokensBurned as real / PMT_UNIT;
      assert Step(t, log) == Totals(Fin(c - b * (c / u)), u - b);
      assert c - b * (c / u) == (c / u) * (u - b);
      assert c / u >= 0.0;
    }
  }

  /**
   * Starting from non-negative finite totals, as long as no redemption burns
   * more units than are held, both totals stay finite and non-negative.
   */
  lemma {:induction false} CoveredFoldStaysNonNegative(t: Totals, logs: seq<Log>)
    requires NonNegative(t) && AllCovered(t, logs)
    ensures NonNegative(FoldFrom(t, logs))
    decreases |logs|
  {
    if |logs| > 0 {
      StepKeepsNonNegative(t, logs[0]);
      CoveredFoldStaysNonNegative(Step(t, logs[0]), logs[1..]);
    }
  }

  /** `ys` is `xs` with possibly other investors on the same events. */
  predicate SameButInvestor(xs: seq<Log>, ys: seq<Log>)
  {
    |xs| == |ys| &&
    forall k :: 0 <= k < |xs| ==> ys[k] == xs[k].(event := xs[k].event.(investor := ys[k].event.investor))
  }

  /** The fold never looks at who invested or redeemed. */
  lemma {:induction false} FoldIgnoresInvestor(t: Totals, xs: seq<Log>, ys: seq<Log>)
    requires SameButInvestor(xs, ys)
    ensures FoldFrom(t, xs) == FoldFrom(t, ys)
    decreases |xs|
  {
    if |xs| > 0 {
      assert ys[0] == xs[0].(event := xs[0].event.(investor := ys[0].event.investor));
      assert Step(t, xs[0]) == Step(t, ys[0]);
      assert SameButInvestor(xs[1..], ys[1..]) by {
        forall k | 0 <= k < |xs[1..]|
          ensures ys[1..][k] == xs[1..][k].(event := xs[1..][k].event.(investor := ys[1..][k].event.investor))
        {
          assert xs[1..][k] == xs[k + 1] && ys[1..][k] == ys[k + 1];
        }
      }
      FoldIgnoresInvestor(Step(t, xs[0]), xs[1..], ys[1..]);
    }
  }

  /**
   * Two investments of 100 and 200 USDC for 10 PMT each, then a redemption of
   * 5 PMT: the average cost is 15, so 75 leaves the cost basis. Fetched with
   * the redemption first, the same logs divide 0 by 0.
   */
  lemma FetchOrderMatters()
    ensures Reconciled([Log(1, "a", Invested("x", 100_000_000, 10_000_000_000_000_000_000)),
                        Log(2, "b", Invested("y", 200_000_000, 10_000_000_000_000_000_000)),
                        Log(3, "c", Redeemed("x", 0, 5_000_000_000_000_000_000))])
         == Totals(Fin(225.0), 15.0)
    ensures Reconciled([Log(3, "c", Redeemed("x", 0, 5_000_000_000_000_000_000)),
                        Log(1, "a", Invested("x", 100_000_000, 10_000_000_000_000_000_000)),
                        Log(2, "b", Invested("y", 200_000_000, 10_000_000_000_000_000_000))]).totalUSDCCost
         == NaN
  {
    var i1 := Log(1, "a", Invested("x", 100_000_000, 10_000_000_000_000_000_000));
    var i2 := Log(2, "b", Invested("y", 200_000_000, 10_000_000_000_000_000_000));
    var r := Log(3, "c", Redeemed("x", 0, 5_000_000_000_000_000_000));
    var t1 := Step(Initial, i1);
    assert t1 == Totals(Fin(100.0), 10.0);
    var t2 := Step(t1, i2);
    assert t2 == Totals(Fin(300.0), 20.0);
    assert Step(t2, r) == Totals(Fin(225.0), 15.0);
    assert [i1, i2, r][1..] == [i2, r] && [i2, r][1..] == [r] && [r][1..] == [];
    assert Reconciled([i1, i2, r]) == FoldFrom(t1, [i2, r]) == FoldFrom(t2, [r]) == FoldFrom(Step(t2, r), []);
    var s1 := Step(Initial, r);
    assert s1.totalUSDCCost == NaN;
    NonFiniteCostPersists(s1, [i1, i2]);
    assert [r, i1, i2][1..] == [i1, i2];
  }

  /** An exception caught by `fetchLogs`: an `Error` object, or any other thrown value. */
  datatype Thrown = ThrownError(message: string) | ThrownValue

  /** The error stored in `logsError` for a caught exception. */
  function CaughtMessage(e: Thrown): string
  {
    match e
    case ThrownError(msg) => msg
    case ThrownValue => "An unknown error occurred"
  }

  /** The hook's state; `logs` is the array the pages later sort in place. */
  class InvestmentsLogsHook {
    var logs: array<Log>
    var loadingLogs: bool
    var logsError: Option<string>
    var totalUSDCCost: Num
    var totalPMTAcquired: real

    /** The initial `useState` values. */
    constructor ()
      ensures logs.Length == 0 && !loadingLogs && logsError == None
      ensures totalUSDCCost == Fin(0.0) && totalPMTAcquired == 0.0
    {
      logs := new Log[0];
      loadingLogs := false;
      logsError := None;
      totalUSDCCost := Fin(0.0);
      totalPMTAcquired := 0.0;
    }

    /**
     * One run of `fetchLogs`, given what `getLogs` returned or threw. On success
     * the logs and both totals are replaced; on failure they keep their
     * previous values and the error is recorded: an `Error`'s own message, or
     * "An unknown error occurred" for any other thrown value. Loading ends in
     * both cases.
     */
    method FetchLogs(fetched: Result<seq<Log>, Thrown>)
      modifies this
      ensures !loadingLogs
      ensures fetched.Success? ==>
        && fresh(logs) && logs[..] == fetched.value
        && Totals(totalUSDCCost, totalPMTAcquired) == Reconciled(fetched.value)
        && logsError == old(logsError)
      ensures fetched.Failure? ==>
        && logs == old(logs)
        && totalUSDCCost == old(totalUSDCCost) && totalPMTAcquired == old(totalPMTAcquired)
        && logsError == Some(CaughtMessage(fetched.error))
      ensures fetched.Failure? && fetched.error.ThrownError? ==> logsError == Some(fetched.error.message)
      ensures fetched.Failure? && fetched.error.ThrownValue? ==> logsError == Some("An unknown error occurred")
    {
      loadingLogs := true;
      match fetched {
        case Success(fetchedLogs) =>
          var cost, units := Reconcile(fetchedLogs);
          logs := new Log[|fetchedLogs|](k requires 0 <= k < |fetchedLogs| => fetchedLogs[k]);
          totalUSDCCost := cost;
          totalPMTAcquired := units;
        case Failure(err) =>
          logsError := Some(CaughtMessage(err));
      }
      loadingLogs := false;
    }
  }
}
