/**
 * The "My Investment" page: the unrealized gain and gain percentage derived
 * from the cost-basis totals and two live reads, and the investment history
 * table. The formulas are kept as written, with the scales they use; the
 * values they are fed are already scaled by the hooks (see `Intended*` below).
 */
module MyInvestment {
  import opened Wrappers
  import opened JsNumber
  import opened Scales
  import opened BlockOrder
  import opened InvestmentsLogs

  /** What the gain tile shows: a message, or `USDC <shown>` with `shown` rounded to cents. */
  datatype GainView = GainConnectWallet | GainLoading | GainNoInvestment | GainUsdc(shown: Num)

  /** What the percentage line shows: nothing, or `<shown>%` with `shown` rounded to cents. */
  datatype PercentView = PercentBlank | PercentShown(shown: Num)

  /** `currentHoldingsValue` of the gain: `PMTTokenValue * (balanceOf || 0) / 1e24`. */
  function GainHoldingsValue(tokenValue: real, balanceOf: Option<real>): real
  {
    tokenValue * OrZero(balanceOf) / HOLDINGS_DIVISOR
  }

  /** `unrealizedGain`: 0 when the holdings are 0, else holdings minus `totalUSDCCost / 1e6`. */
  function GainAmount(tokenValue: real, balanceOf: Option<real>, totalUSDCCost: Num): Num
  {
    var holdings := GainHoldingsValue(tokenValue, balanceOf);
    if holdings == 0.0 then Fin(0.0) else Sub(Fin(holdings), Div(totalUSDCCost, Fin(USDC_UNIT)))
  }

  /** `currentHoldingsValue` of the percentage: `PMTTokenValue * (balanceOf || 0)`. */
  function PercentHoldingsValue(tokenValue: real, balanceOf: Option<real>): real
  {
    tokenValue * OrZero(balanceOf)
  }

  /** `unrealizedGainPercent`: 0 when the holdings are 0, else `(holdings / 1e18 / cost - 1) * 100`. */
  function PercentAmount(tokenValue: real, balanceOf: Option<real>, totalUSDCCost: Num): Num
  {
    var holdings := PercentHoldingsValue(tokenValue, balanceOf);
    if holdings == 0.0 then Fin(0.0)
    else Mul(Sub(Div(Fin(holdings / PMT_UNIT), totalUSDCCost), Fin(1.0)), Fin(PERCENT))
  }

  /** `calculateUnrealizedGain`, its branches in the page's order. */
  function UnrealizedGain(isConnected: bool, loadingLogs: bool, PMTTokenValue: Option<real>,
                          balanceOf: Option<real>, totalUSDCCost: Num, totalPMTAcquired: Option<real>): GainView
  {
    if !isConnected then GainConnectWallet
    else if loadingLogs then GainLoading
    else if totalPMTAcquired.None? || !Truthy(PMTTokenValue) then GainNoInvestment
    else if totalUSDCCost == Fin(0.0) then GainUsdc(Fin(0.0))
    else GainUsdc(ToFixed2(GainAmount(PMTTokenValue.value, balanceOf, totalUSDCCost)))
  }

  /** `calculateUnrealizedGainPercent`. */
  function UnrealizedGainPercent(isConnected: bool, loadingLogs: bool, PMTTokenValue: Option<real>,
                                 balanceOf: Option<real>, totalUSDCCost: Num, totalPMTAcquired: Option<real>): PercentView
  {
    if !isConnected || loadingLogs || !Truthy(PMTTokenValue) || totalPMTAcquired.None? then PercentBlank
    else if totalUSDCCost == Fin(0.0) || totalPMTAcquired.value == 0.0 then PercentShown(Fin(0.0))
    else PercentShown(ToFixed2(PercentAmount(PMTTokenValue.value, balanceOf, totalUSDCCost)))
  }

  /**
   * The gain tile's branches are tested in order: wallet, loading, missing
   * acquired total or falsy token value, and only then a figure is shown.
   */
  lemma GainBranchOrder(isConnected: bool, loadingLogs: bool, PMTTokenValue: Option<real>,
                        balanceOf: Option<real>, totalUSDCCost: Num, totalPMTAcquired: Option<real>)
    ensures var v := UnrealizedGain(isConnected, loadingLogs, PMTTokenValue, balanceOf, totalUSDCCost, totalPMTAcquired);
      && (v == GainConnectWallet <==> !isConnected)
      && (v == GainLoading <==> isConnected && loadingLogs)
      && (v == GainNoInvestment <==>
            isConnected && !loadingLogs && (totalPMTAcquired.None? || !Truthy(PMTTokenValue)))
      && (v.GainUsdc? <==> isConnected && !loadingLogs && totalPMTAcquired.Some? && Truthy(PMTTokenValue))
  {
  }

  /** A zero cost basis shows `USDC 0.00` whatever the balance: the holdings are not used. */
  lemma ZeroCostShowsZeroGain(PMTTokenValue: Option<real>, balanceA: Option<real>, balanceB: Option<real>,
                              totalPMTAcquired: Option<real>)
    requires Truthy(PMTTokenValue) && totalPMTAcquired.Some?
    ensures UnrealizedGain(true, false, PMTTokenValue, balanceA, Fin(0.0), totalPMTAcquired) == GainUsdc(Fin(0.0))
    ensures UnrealizedGain(true, false, PMTTokenValue, balanceA, Fin(0.0), totalPMTAcquired)
         == UnrealizedGain(true, false, PMTTokenValue, balanceB, Fin(0.0), totalPMTAcquired)
  {
  }

  /** With no balance (or a zero balance) the gain is 0 whatever the cost basis, even NaN. */
  lemma ZeroHoldingsShowZeroGain(PMTTokenValue: Option<real>, balanceOf: Option<real>,
                                 totalUSDCCost: Num, totalPMTAcquired: Option<real>)
    requires Truthy(PMTTokenValue) && totalPMTAcquired.Some? && OrZero(balanceOf) == 0.0
    ensures UnrealizedGain(true, false, PMTTokenValue, balanceOf, totalUSDCCost, totalPMTAcquired) == GainUsdc(Fin(0.0))
    ensures UnrealizedGainPercent(true, false, PMTTokenValue, balanceOf, totalUSDCCost, totalPMTAcquired)
         == PercentShown(Fin(0.0))
  {
  }

  /**
   * The percentage is blank exactly when the gain shows a message instead of a
   * figure, and it is `0.00%` for a zero cost basis or zero units acquired.
   */
  lemma PercentShownWithGain(isConnected: bool, loadingLogs: bool, PMTTokenValue: Option<real>,
                             balanceOf: Option<real>, totalUSDCCost: Num, totalPMTAcquired: Option<real>)
    ensures var p := UnrealizedGainPercent(isConnected, loadingLogs, PMTTokenValue, balanceOf, totalUSDCCost, totalPMTAcquired);
      && (p == PercentBlank <==> !isConnected || loadingLogs || !Truthy(PMTTokenValue) || totalPMTAcquired.None?)
      && (p.PercentShown? <==>
            UnrealizedGain(isConnected, loadingLogs, PMTTokenValue, balanceOf, totalUSDCCost, totalPMTAcquired).GainUsdc?)
      && (p.PercentShown? && (totalUSDCCost == Fin(0.0) || totalPMTAcquired.value == 0.0) ==> p == PercentShown(Fin(0.0)))
  {
  }

  /** For a finite cost basis neither figure is ever NaN or infinite: no division by zero happens. */
  lemma FiniteCostGivesFiniteFigures(isConnected: bool, loadingLogs: bool, PMTTokenValue: Option<real>,
                                     balanceOf: Option<real>, totalUSDCCost: Num, totalPMTAcquired: Option<real>)
    requires totalUSDCCost.Fin?
    ensures var g := UnrealizedGain(isConnected, loadingLogs, PMTTokenValue, balanceOf, totalUSDCCost, totalPMTAcquired);
      g.GainUsdc? ==> g.shown.Fin?
    ensures var p := UnrealizedGainPercent(isConnected, loadingLogs, PMTTokenValue, balanceOf, totalUSDCCost, totalPMTAcquired);
      p.PercentShown? ==> p.shown.Fin?
  {
    if isConnected && !loadingLogs && Truthy(PMTTokenValue) && totalPMTAcquired.Some? && totalUSDCCost != Fin(0.0) {
      assert totalUSDCCost.value != 0.0;
      var v := PMTTokenValue.value;
      if PercentHoldingsValue(v, balanceOf) != 0.0 {
        assert Div(Fin(PercentHoldingsValue(v, balanceOf) / PMT_UNIT), totalUSDCCost).Fin?;
      }
    }
  }

  /**
   * Gain and percentage agree: for a finite non-zero cost basis, the gain is
   * the cost basis (divided by 1e6 as the gain formula does) times the
   * percentage over 100; for a positive cost basis both have the same sign.
   */
  lemma GainMatchesPercent(tokenValue: real, balanceOf: Option<real>, cost: real)
    requires cost != 0.0
    ensures GainAmount(tokenValue, balanceOf, Fin(cost)).Fin? && PercentAmount(tokenValue, balanceOf, Fin(cost)).Fin?
    ensures var g := GainAmount(tokenValue, balanceOf, Fin(cost)).value;
            var p := PercentAmount(tokenValue, balanceOf, Fin(cost)).value;
      && (PercentHoldingsValue(tokenValue, balanceOf) != 0.0 ==> g == (cost / USDC_UNIT) * (p / PERCENT))
      && (cost > 0.0 ==> (g > 0.0 <==> p > 0.0) && (g < 0.0 <==> p < 0.0))
  {
    var h := PercentHoldingsValue(tokenValue, balanceOf);
    assert GainHoldingsValue(tokenValue, balanceOf) == h / HOLDINGS_DIVISOR;
    if h != 0.0 {
      var g := h / HOLDINGS_DIVISOR - cost / USDC_UNIT;
      var q := h / PMT_UNIT / cost;
      var p := (q - 1.0) * PERCENT;
      assert GainAmount(tokenValue, balanceOf, Fin(cost)) == Fin(g);
      assert PercentAmount(tokenValue, balanceOf, Fin(cost)) == Fin(p);
      assert (cost / USDC_UNIT) * q == h / HOLDINGS_DIVISOR;
      assert g == (cost / USDC_UNIT) * (p / PERCENT);
      if cost > 0.0 {
        assert cost / USDC_UNIT > 0.0;
      }
    }
  }

  // The gain and percentage formulas divide by 1e24 and 1e18 as if `balanceOf`
  // were the raw 18-decimal balance and `totalUSDCCost` the raw 6-decimal cost.
  // The hooks pass the balance in whole PMT and the cost in whole USDC, and the
  // token value is the raw 6-decimal USDC price of one whole PMT. The members
  // below state what the figures evidently should be for those inputs.

  /** Value of the holdings in whole USDC: price in USDC times whole PMT held. */
  function IntendedHoldingsValue(tokenValue: real, balanceOf: Option<real>): real
  {
    tokenValue / USDC_UNIT * OrZero(balanceOf)
  }

  /** Holdings value minus the cost basis, both in whole USDC. */
  function IntendedGainAmount(tokenValue: real, balanceOf: Option<real>, totalUSDCCost: real): real
  {
    IntendedHoldingsValue(tokenValue, balanceOf) - totalUSDCCost
  }

  /** Percentage return on the cost basis. */
  function IntendedPercentAmount(tokenValue: real, balanceOf: Option<real>, totalUSDCCost: real): real
    requires totalUSDCCost != 0.0
  {
    (IntendedHoldingsValue(tokenValue, balanceOf) / totalUSDCCost - 1.0) * PERCENT
  }

  /**
   * The intended figures: breaking even shows 0 and 0%, the gain is the cost
   * basis times the percentage over 100, and a gain is shown exactly when the
   * holdings are worth more than they cost.
   */
  lemma IntendedFiguresAgree(tokenValue: real, balanceOf: Option<real>, cost: real)
    requires cost > 0.0
    ensures IntendedGainAmount(tokenValue, balanceOf, cost)
         == cost * IntendedPercentAmount(tokenValue, balanceOf, cost) / PERCENT
    ensures IntendedHoldingsValue(tokenValue, balanceOf) == cost ==>
              IntendedGainAmount(tokenValue, balanceOf, cost) == 0.0
              && IntendedPercentAmount(tokenValue, balanceOf, cost) == 0.0
    ensures IntendedGainAmount(tokenValue, balanceOf, cost) > 0.0
        <==> IntendedHoldingsValue(tokenValue, balanceOf) > cost
    ensures IntendedPercentAmount(tokenValue, balanceOf, cost) > 0.0
        <==> IntendedHoldingsValue(tokenValue, balanceOf) > cost
  {
    var h := IntendedHoldingsValue(tokenValue, balanceOf);
    assert cost * (h / cost) == h;
    assert IntendedPercentAmount(tokenValue, balanceOf, cost) > 0.0 <==> h / cost > 1.0;
    assert h / cost > 1.0 <==> h > cost;
  }

  /**
   * As written, an investor who paid 100 USDC for 100 PMT now worth exactly
   * 1 USDC each is shown a loss of about -100%, where 0% is meant, and a gain
   * of -0.0001 USDC where 0 is meant.
   */
  lemma BreakEvenShownAsTotalLoss()
    ensures PercentAmount(1_000_000.0, Some(100.0), Fin(100.0)).Fin?
    ensures PercentAmount(1_000_000.0, Some(100.0), Fin(100.0)).value < -99.0
    ensures GainAmount(1_000_000.0, Some(100.0), Fin(100.0)).Fin?
    ensures GainAmount(1_000_000.0, Some(100.0), Fin(100.0)).value < 0.0
    ensures IntendedPercentAmount(1_000_000.0, Some(100.0), 100.0) == 0.0
    ensures IntendedGainAmount(1_000_000.0, Some(100.0), 100.0) == 0.0
  {
    assert PercentHoldingsValue(1_000_000.0, Some(100.0)) == 100_000_000.0;
    assert GainHoldingsValue(1_000_000.0, Some(100.0)) == 100_000_000.0 / HOLDINGS_DIVISOR;
  }

  /** One row of the history table. */
  datatype HistoryRow = HistoryRow(blockNumber: nat, kind: string, tokens: Num, usdc: real, transactionHash: string)

  /** What the history table body shows. */
  datatype HistoryView =
    | HistoryConnectWallet
    | HistoryLoading
    | HistoryError(message: string)
    | HistoryEmpty
    | HistoryRows(rows: seq<HistoryRow>)

  function BlockOf(log: Log): nat
  {
    log.blockNumber
  }

  /** The type column: `Invest` for an `Invested` log, `Redeem` for any other. */
  function EventLabel(e: Event): string
  {
    if e.Invested? then "Invest" else "Redeem"
  }

  /**
   * The PMT column: `tokensMinted || tokensBurned`, over 1e18. An `Invested`
   * log has no `tokensBurned`, so a zero mint falls through to `undefined`
   * and the column shows NaN.
   */
  function TokensCell(e: Event): Num
  {
    match e
    case Invested(_, _, minted) => if minted != 0 then Fin(Round2(minted as real / PMT_UNIT)) else NaN
    case Redeemed(_, _, burned) => Fin(Round2(burned as real / PMT_UNIT))
  }

  function Row(log: Log): HistoryRow
  {
    HistoryRow(log.blockNumber, EventLabel(log.event), TokensCell(log.event),
               Round2(log.event.usdcAmount as real / USDC_UNIT), log.transactionHash)
  }

  function Rows(logs: seq<Log>): seq<HistoryRow>
  {
    seq(|logs|, k requires 0 <= k < |logs| => Row(logs[k]))
  }

  /**
   * Each row is labelled after its own event's kind; a zero mint shows NaN,
   * and otherwise both numeric columns are their raw amounts over 1e18 and 1e6
   * to within half a hundredth.
   */
  lemma RowLabels(log: Log)
    ensures Row(log).kind == "Invest" <==> log.event.Invested?
    ensures Row(log).kind == "Redeem" <==> log.event.Redeemed?
    ensures Row(log).tokens == NaN <==> log.event.Invested? && log.event.tokensMinted == 0
    ensures Row(log).tokens != NaN ==>
              var amount := if log.event.Invested? then log.event.tokensMinted else log.event.tokensBurned;
              Row(log).tokens.Fin? && -0.005 <= Row(log).tokens.value - amount as real / PMT_UNIT <= 0.005
    ensures -0.005 <= Row(log).usdc - log.event.usdcAmount as real / USDC_UNIT <= 0.005
  {
  }

  /**
   * `renderHistoryTable`. When rows are shown, the hook's log array has first
   * been sorted in place by descending block number.
   */
  method RenderHistoryTable(isConnected: bool, hook: InvestmentsLogsHook) returns (view: HistoryView)
    modifies hook.logs
    ensures !isConnected ==> view == HistoryConnectWallet
    ensures isConnected && hook.loadingLogs ==> view == HistoryLoading
    ensures isConnected && !hook.loadingLogs && hook.logsError.Some? ==> view == HistoryError(hook.logsError.value)
    ensures isConnected && !hook.loadingLogs && hook.logsError.None? && hook.logs.Length == 0 ==> view == HistoryEmpty
    ensures isConnected && !hook.loadingLogs && hook.logsError.None? && hook.logs.Length > 0 ==> view.HistoryRows?
    ensures view.HistoryRows? ==>
      && DescendingBy(hook.logs[..], BlockOf)
      && multiset(hook.logs[..]) == multiset(old(hook.logs[..]))
      && view.rows == Rows(hook.logs[..])
    ensures view.HistoryRows? ==>
      |view.rows| == hook.logs.Length && |view.rows| > 0
      && forall k, l :: 0 <= k < l < |view.rows| ==> view.rows[k].blockNumber >= view.rows[l].blockNumber
    ensures !view.HistoryRows? ==> hook.logs[..] == old(hook.logs[..])
  {
    if !isConnected {
      view := HistoryConnectWallet;
    } else if hook.loadingLogs {
      view := HistoryLoading;
    } else if hook.logsError.Some? {
      view := HistoryError(hook.logsError.value);
    } else if hook.logs.Length == 0 {
      view := HistoryEmpty;
    } else {
      SortByBlockDesc(hook.logs, BlockOf);
      view := HistoryRows(Rows(hook.logs[..]));
      forall k, l | 0 <= k < l < |view.rows|
        ensures view.rows[k].blockNumber >= view.rows[l].blockNumber
      {
        assert BlockOf(hook.logs[..][k]) >= BlockOf(hook.logs[..][l]);
      }
    }
  }
}
