/**
 * The portfolio-data hook: five contract reads turned into the figures the
 * dashboard displays. A read that failed, or a scalar read equal to zero (a
 * zero bigint is falsy), becomes null.
 */
module PortfolioData {
  import opened Wrappers
  import opened JsNumber
  import opened Scales

  /**
   * The results of the five reads; None where the read has no result. For the
   * two allocation reads, whose results are a pair of arrays, the second array.
   */
  datatype PortfolioReads = PortfolioReads(
    totalPortfolioUsdcValue: Option<nat>,
    tokenValueInUsdc6Dec: Option<nat>,
    totalSupply: Option<nat>,
    currentAllocations: Option<seq<nat>>,
    calculatedAllocations: Option<seq<nat>>)

  /**
   * `PortfolioData`. The string fields hold `toFixed(2)` output, modelled as
   * the number it denotes; an allocation can read "NaN" (see `AllocationAt`).
   */
  datatype PortfolioData = PortfolioData(
    portfolioValue: Option<real>,
    PMTTokenValue: Option<real>,
    PMTTotalSupply: Option<real>,
    MimicXAUAlloc: Option<Num>,
    MimicBTCAlloc: Option<Num>,
    MimicETHAlloc: Option<Num>,
    OffChainRebalancingData: Option<seq<real>>)

  /** The state before any data has arrived: every field null. */
  const Unloaded: PortfolioData := PortfolioData(None, None, None, None, None, None, None)

  /** `result ? BigInt(result) : null`: a missing or zero read gives null. */
  function NullIfFalsy(read: Option<nat>): Option<nat>
  {
    if read.Some? && read.value != 0 then read else None
  }

  /** A non-null read divided by `unit` and rounded to 2 decimals. */
  function ScaledFixed2(read: Option<nat>, unit: real): (r: Option<real>)
    requires unit > 0.0
    ensures r.None? <==> read.None?
    ensures r.Some? ==> -0.005 <= r.value - read.value as real / unit <= 0.005
  {
    match read
    case Some(v) => Some(Round2(v as real / unit))
    case None => None
  }

  /**
   * Allocation `k` of the current allocations: null for every k when the read
   * has no result; otherwise `allocations[k] / 1e4` to 2 decimals, which is
   * NaN when the array has no element k (`undefined !== null`).
   */
  function AllocationAt(allocations: Option<seq<nat>>, k: nat): (r: Option<Num>)
    ensures r.None? <==> allocations.None?
    ensures allocations.Some? && k < |allocations.value| ==>
              r.value.Fin? && -0.005 <= r.value.value - allocations.value[k] as real / ALLOCATION_UNIT <= 0.005
    ensures allocations.Some? && k < |allocations.value| && allocations.value[k] == 0 ==> r == Some(Fin(0.0))
    ensures allocations.Some? && k >= |allocations.value| ==> r == Some(NaN)
  {
    match allocations
    case None => None
    case Some(a) => if k < |a| then Some(Fin(Round2(a[k] as real / ALLOCATION_UNIT))) else Some(NaN)
  }

  /** The `setFormattedData` argument computed from the reads. */
  function Format(raw: PortfolioReads): PortfolioData
  {
    PortfolioData(
      ScaledFixed2(NullIfFalsy(raw.totalPortfolioUsdcValue), USDC_UNIT),
      match NullIfFalsy(raw.tokenValueInUsdc6Dec)
        case Some(v) => Some(v as real)
        case None => None,
      ScaledFixed2(NullIfFalsy(raw.totalSupply), PMT_UNIT),
      AllocationAt(raw.currentAllocations, 0),
      AllocationAt(raw.currentAllocations, 1),
      AllocationAt(raw.currentAllocations, 2),
      match raw.calculatedAllocations
        case Some(a) => Some(seq(|a|, k requires 0 <= k < |a| => a[k] as real))
        case None => None)
  }

  /**
   * Portfolio value, token value and total supply are null exactly when their
   * read is missing or zero; otherwise the value is within half a cent of the
   * raw read over 1e6 (USDC) or 1e18 (PMT), and the token value is the raw
   * 6-decimal read, unscaled.
   */
  lemma ScalarFields(raw: PortfolioReads)
    ensures var d := Format(raw);
      && (d.portfolioValue.None? <==> raw.totalPortfolioUsdcValue.None? || raw.totalPortfolioUsdcValue.value == 0)
      && (d.PMTTokenValue.None? <==> raw.tokenValueInUsdc6Dec.None? || raw.tokenValueInUsdc6Dec.value == 0)
      && (d.PMTTotalSupply.None? <==> raw.totalSupply.None? || raw.totalSupply.value == 0)
      && (d.portfolioValue.Some? ==>
            -0.005 <= d.portfolioValue.value - raw.totalPortfolioUsdcValue.value as real / USDC_UNIT <= 0.005)
      && (d.PMTTokenValue.Some? ==> d.PMTTokenValue.value == raw.tokenValueInUsdc6Dec.value as real)
      && (d.PMTTotalSupply.Some? ==>
            -0.005 <= d.PMTTotalSupply.value - raw.totalSupply.value as real / PMT_UNIT <= 0.005)
  {
  }

  /**
   * What the page is given for allocation `k`: null exactly when the read has
   * no result; otherwise the element over 1e4 to within half a hundredth, a
   * zero allocation giving 0 rather than null, and NaN past the array's end.
   */
  predicate AllocationShown(allocations: Option<seq<nat>>, k: nat, shown: Option<Num>)
  {
    && (shown.None? <==> allocations.None?)
    && (allocations.Some? && k < |allocations.value| ==>
          && shown.Some? && shown.value.Fin?
          && -0.005 <= shown.value.value - allocations.value[k] as real / ALLOCATION_UNIT <= 0.005
          && (allocations.value[k] == 0 ==> shown == Some(Fin(0.0))))
    && (allocations.Some? && k >= |allocations.value| ==> shown == Some(NaN))
  }

  /** The gold, BTC and ETH allocations are elements 0, 1 and 2 of the current allocations. */
  lemma AllocationFields(raw: PortfolioReads)
    ensures var d := Format(raw);
      && AllocationShown(raw.currentAllocations, 0, d.MimicXAUAlloc)
      && AllocationShown(raw.currentAllocations, 1, d.MimicBTCAlloc)
      && AllocationShown(raw.currentAllocations, 2, d.MimicETHAlloc)
  {
  }

  /** The off-chain rebalancing data is the second array as numbers, element by element, or null. */
  lemma OffChainField(raw: PortfolioReads)
    ensures var d := Format(raw);
      && (d.OffChainRebalancingData.None? <==> raw.calculatedAllocations.None?)
      && (d.OffChainRebalancingData.Some? ==>
            && |d.OffChainRebalancingData.value| == |raw.calculatedAllocations.value|
            && forall k :: 0 <= k < |d.OffChainRebalancingData.value| ==>
                 d.OffChainRebalancingData.value[k] == raw.calculatedAllocations.value[k] as real)
  {
  }

  /** The hook's `formattedData` state. */
  class PortfolioDataHook {
    var formattedData: PortfolioData

    constructor ()
      ensures formattedData == Unloaded
    {
      formattedData := Unloaded;
    }

    /** One run of the effect: replaces the whole state when data is present, else keeps it. */
    method OnData(data: Option<PortfolioReads>)
      modifies this
      ensures data.Some? ==> formattedData == Format(data.value)
      ensures data.None? ==> formattedData == old(formattedData)
    {
      if data.Some? {
        formattedData := Format(data.value);
      }
    }
  }
}
