/**
 * The dashboard's home page: token value and historical return derived from
 * the raw 6-decimal token value, the USDC value of each asset, and the
 * rebalancing history table.
 */
module HomePage {
  import opened Wrappers
  import opened JsNumber
  import opened Scales
  import opened BlockOrder

  /** `formattedPMTTokenValue`: the token value in USDC to 2 decimals, or None for "Unavailable". */
  function FormattedPMTTokenValue(PMTTokenValue: Option<real>): Option<real>
  {
    match PMTTokenValue
    case Some(v) => Some(Round2(v / USDC_UNIT))
    case None => None
  }

  /** `historicalReturn`: `(PMTTokenValue / 1e6 - 1) * 100` percent to 2 decimals, or None for "Unavailable". */
  function HistoricalReturn(PMTTokenValue: Option<real>): Option<real>
  {
    match PMTTokenValue
    case Some(v) => Some(Round2((v / USDC_UNIT - 1.0) * PERCENT))
    case None => None
  }

  /**
   * Both figures are unavailable together; the token value shown is the raw
   * value over 1e6 to within half a cent; a token issued at 1 USDC and still
   * worth exactly that shows 1.00 and a 0.00% return, and the return is
   * within half a hundredth of a percent of the growth of the token value
   * over 1 USDC.
   */
  lemma TokenValueAndReturn(PMTTokenValue: Option<real>)
    ensures FormattedPMTTokenValue(PMTTokenValue).None? <==> PMTTokenValue.None?
    ensures HistoricalReturn(PMTTokenValue).None? <==> PMTTokenValue.None?
    ensures PMTTokenValue == Some(USDC_UNIT) ==>
              FormattedPMTTokenValue(PMTTokenValue) == Some(1.0) && HistoricalReturn(PMTTokenValue) == Some(0.0)
    ensures PMTTokenValue.Some? ==>
              -0.005 <= FormattedPMTTokenValue(PMTTokenValue).value - PMTTokenValue.value / USDC_UNIT <= 0.005
    ensures PMTTokenValue.Some? ==>
              -0.005 <= HistoricalReturn(PMTTokenValue).value
                        - (PMTTokenValue.value - USDC_UNIT) / USDC_UNIT * PERCENT <= 0.005
  {
    if PMTTokenValue == Some(USDC_UNIT) {
      assert Round2(1.0) == 1.0 by {
        assert (1.0 * 100.0 + 0.5).Floor == 100;
      }
    }
    if PMTTokenValue.Some? {
      var v := PMTTokenValue.value;
      assert (v / USDC_UNIT - 1.0) * PERCENT == (v - USDC_UNIT) / USDC_UNIT * PERCENT;
    }
  }

  /**
   * The value of one asset: `portfolioValue * alloc / 100` to 2 decimals, or
   * None for "Unavailable" when either string is null. Both are non-empty
   * strings otherwise, so even "0.00" counts as present.
   */
  function AssetValue(portfolioValue: Option<real>, alloc: Option<Num>): Option<Num>
  {
    if portfolioValue.Some? && alloc.Some? then
      Some(ToFixed2(Div(Mul(Fin(portfolioValue.value), alloc.value), Fin(PERCENT))))
    else None
  }

  /**
   * An asset's value is unavailable exactly when a figure is missing; for a
   * finite allocation it is that share of the portfolio value to within half
   * a cent, and a NaN allocation shows NaN.
   */
  lemma AssetValueShare(portfolioValue: Option<real>, alloc: Option<Num>)
    ensures AssetValue(portfolioValue, alloc).None? <==> portfolioValue.None? || alloc.None?
    ensures portfolioValue.Some? && alloc.Some? && alloc.value.Fin? ==>
              var shown := AssetValue(portfolioValue, alloc).value;
              shown.Fin? && -0.005 <= shown.value - portfolioValue.value * alloc.value.value / PERCENT <= 0.005
    ensures portfolioValue.Some? && alloc == Some(NaN) ==> AssetValue(portfolioValue, alloc) == Some(NaN)
  {
  }

  /** A `PortfolioRebalanced` log: its three unnamed indexed arguments are the allocations. */
  datatype RebalanceLog = RebalanceLog(blockNumber: nat, transactionHash: string, args: seq<nat>)

  /** A row of the rebalancing table: the block, each argument as a percentage, the transaction. */
  datatype RebalanceRow = RebalanceRow(blockNumber: nat, allocations: seq<real>, transactionHash: string)

  /** The table body: "Loading logs...", the rows, or "No logs found.". */
  datatype RebalanceTable = RebalanceLoading | RebalanceRows(rows: seq<RebalanceRow>) | RebalanceEmpty

  function RebalanceBlock(log: RebalanceLog): nat
  {
    log.blockNumber
  }

  /** Each argument divided by 1e4 and shown to 2 decimals as a percentage. */
  function RebalanceRowOf(log: RebalanceLog): (row: RebalanceRow)
    ensures row.blockNumber == log.blockNumber && |row.allocations| == |log.args|
    ensures row.transactionHash == log.transactionHash
    ensures forall k :: 0 <= k < |log.args| ==>
              -0.005 <= row.allocations[k] - log.args[k] as real / ALLOCATION_UNIT <= 0.005
  {
    RebalanceRow(log.blockNumber,
                 seq(|log.args|, k requires 0 <= k < |log.args| => Round2(log.args[k] as real / ALLOCATION_UNIT)),
                 log.transactionHash)
  }

  function RebalanceRowsOf(logs: seq<RebalanceLog>): seq<RebalanceRow>
  {
    seq(|logs|, k requires 0 <= k < |logs| => RebalanceRowOf(logs[k]))
  }

  /**
   * The rebalancing history table body. Rows are shown after sorting the
   * hook's log array in place by descending block number, so they come out
   * newest first.
   */
  method RenderRebalancingHistory(loadingLogs: bool, logs: array<RebalanceLog>) returns (view: RebalanceTable)
    modifies logs
    ensures loadingLogs ==> view == RebalanceLoading
    ensures !loadingLogs && logs.Length == 0 ==> view == RebalanceEmpty
    ensures !loadingLogs && logs.Length > 0 ==>
      && DescendingBy(logs[..], RebalanceBlock)
      && multiset(logs[..]) == multiset(old(logs[..]))
      && view == RebalanceRows(RebalanceRowsOf(logs[..]))
    ensures view.RebalanceRows? ==>
      forall k, l :: 0 <= k < l < |view.rows| ==> view.rows[k].blockNumber >= view.rows[l].blockNumber
    ensures !view.RebalanceRows? ==> logs[..] == old(logs[..])
  {
    if loadingLogs {
      view := RebalanceLoading;
    } else if logs.Length > 0 {
      SortByBlockDesc(logs, RebalanceBlock);
      view := RebalanceRows(RebalanceRowsOf(logs[..]));
      forall k, l | 0 <= k < l < |view.rows|
        ensures view.rows[k].blockNumber >= view.rows[l].blockNumber
      {
        assert RebalanceBlock(logs[..][k]) >= RebalanceBlock(logs[..][l]);
      }
    } else {
      view := RebalanceEmpty;
    }
  }
}
