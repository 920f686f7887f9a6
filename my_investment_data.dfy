/**
 * The connected investor's reads: PMT balance, ownership share and total
 * portfolio value, requested only when a wallet address is known.
 */
module MyInvestmentData {
  import opened Wrappers
  import opened JsNumber
  import opened Scales
  import InvestmentsLogs

  /** A contract view call the hook asks for. */
  datatype ContractCall =
    | BalanceOf(account: InvestmentsLogs.Address)
    | GetOwnershipShare(investor: InvestmentsLogs.Address)
    | GetTotalPortfolioUsdcValue

  /** The reads requested for the current account: all three, or none without an address. */
  function RequestedReads(address: Option<InvestmentsLogs.Address>): (calls: seq<ContractCall>)
    ensures address.None? <==> calls == []
    ensures address.Some? ==> |calls| == 3 && calls[0].BalanceOf? && calls[0].account == address.value
    ensures address.Some? ==> calls[1].GetOwnershipShare? && calls[1].investor == address.value
    ensures address.Some? ==> calls[2] == GetTotalPortfolioUsdcValue
  {
    match address
    case Some(a) => [BalanceOf(a), GetOwnershipShare(a), GetTotalPortfolioUsdcValue]
    case None => []
  }

  /** `MyInvestmentData`; each string field modelled as the number `toFixed(2)` denotes. */
  datatype MyInvestmentData = MyInvestmentData(
    balanceOf: Option<real>,
    ownershipShare: Option<real>,
    totalPortfolioUsdcValue: Option<real>)

  const NoInvestmentData: MyInvestmentData := MyInvestmentData(None, None, None)

  /** `data[k]?.result ? (Number(result) / unit).toFixed(2) : null`. */
  function ReadAt(data: seq<Option<nat>>, k: nat, unit: real): (r: Option<real>)
    requires unit > 0.0
    ensures r.None? <==> k >= |data| || data[k].None? || data[k].value == 0
    ensures r.Some? ==> -0.005 <= r.value - data[k].value as real / unit <= 0.005
  {
    if k < |data| && data[k].Some? && data[k].value != 0 then Some(Round2(data[k].value as real / unit)) else None
  }

  /** The data built from the three results (balance over 1e18, the other two over 1e6). */
  function FormatInvestment(data: seq<Option<nat>>): MyInvestmentData
  {
    MyInvestmentData(ReadAt(data, 0, PMT_UNIT), ReadAt(data, 1, USDC_UNIT), ReadAt(data, 2, USDC_UNIT))
  }

  /**
   * Each field comes from its own read, in the order requested: the balance is
   * the first result over 1e18, the ownership share and the portfolio value the
   * second and third over 1e6, each to within half a hundredth; a missing or
   * zero result gives null for that field alone.
   */
  lemma InvestmentFields(data: seq<Option<nat>>)
    requires |data| == 3
    ensures var d := FormatInvestment(data);
      && (d.balanceOf.None? <==> data[0].None? || data[0].value == 0)
      && (d.ownershipShare.None? <==> data[1].None? || data[1].value == 0)
      && (d.totalPortfolioUsdcValue.None? <==> data[2].None? || data[2].value == 0)
      && (d.balanceOf.Some? ==> -0.005 <= d.balanceOf.value - data[0].value as real / PMT_UNIT <= 0.005)
      && (d.ownershipShare.Some? ==> -0.005 <= d.ownershipShare.value - data[1].value as real / USDC_UNIT <= 0.005)
      && (d.totalPortfolioUsdcValue.Some? ==>
            -0.005 <= d.totalPortfolioUsdcValue.value - data[2].value as real / USDC_UNIT <= 0.005)
  {
  }

  /** Without an address nothing is read, and the reads yield nothing but nulls. */
  lemma NoAddressNoData()
    ensures RequestedReads(None) == []
    ensures FormatInvestment([]) == NoInvestmentData
  {
  }

  /** The hook's `investmentData` and `loading` states. */
  class MyInvestmentDataHook {
    var investmentData: MyInvestmentData
    var loading: bool

    constructor ()
      ensures investmentData == NoInvestmentData && !loading
    {
      investmentData := NoInvestmentData;
      loading := false;
    }

    /**
     * One run of the effect: the data is replaced only when the reads are no
     * longer pending and data is present; `loading` then mirrors `isPending`.
     */
    method Effect(data: Option<seq<Option<nat>>>, isPending: bool)
      modifies this
      ensures !isPending && data.Some? ==> investmentData == FormatInvestment(data.value)
      ensures isPending || data.None? ==> investmentData == old(investmentData)
      ensures loading == isPending
    {
      if !isPending && data.Some? {
        investmentData := FormatInvestment(data.value);
      }
      loading := isPending;
    }
  }
}
