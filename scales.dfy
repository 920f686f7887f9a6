/**
 * The decimal scale factors the dashboard divides or multiplies by. Each one is
 * named once here so that every use can be traced back to the line it comes from.
 */
module Scales {

  /** USDC has 6 decimals (`/ 1e6`, `/ 10 ** 6`). */
  const USDC_UNIT: real := 1_000_000.0

  /** The PMT share token has 18 decimals (`/ 1e18`, `/ 10 ** 18`). */
  const PMT_UNIT: real := 1_000_000_000_000_000_000.0

  /** Allocation percentages are stored with 4 decimals (`/ 10 ** 4`, `/ 1e4`). */
  const ALLOCATION_UNIT: real := 10_000.0

  /** The divisor of the holdings value in the unrealized gain (`/ 1e24`). */
  const HOLDINGS_DIVISOR: real := 1_000_000_000_000_000_000_000_000.0

  /** Factor from a ratio to a percentage. */
  const PERCENT: real := 100.0

  /** The sentiment score is a weighted sum scaled by `1e4`. */
  const SENTIMENT_SCALE: real := 10_000.0

  /** The GVZ index value is sent multiplied by 100. */
  const GVZ_SCALE: real := 100.0

  /** `invest` and `increaseAllowance` take the USDC amount times `1e6`. */
  const INVEST_AMOUNT_SCALE: real := 1_000_000.0

  /** `redeem` takes the redeemed percentage times `1e4`. */
  const REDEEM_PERCENT_SCALE: real := 10_000.0
}
