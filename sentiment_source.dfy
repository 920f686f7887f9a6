/**
 * The off-chain request script: it checks its two API secrets, checks the three
 * API responses, turns the BTC and ETH trading signals into weighted sentiment
 * scores on a 0..10000 scale, and returns the rounded BTC score, ETH score and
 * GVZ index value (times 100), in that order.
 */
module SentimentSource {
  import opened Wrappers
  import opened JsNumber
  import opened Scales

  /** One indicator of a trading-signals response; `score` is the number `parseFloat` reads. */
  datatype Indicator = Indicator(score: real)

  /** The `Data` object of a trading-signals response (the four indicators used). */
  datatype SignalData = SignalData(
    concentrationVar: Indicator,
    largetxsVar: Indicator,
    addressesNetGrowth: Indicator,
    inOutVar: Indicator)

  /** The result of `parseData`. */
  datatype SubScores = SubScores(
    concentrationVarScore: real,
    largetxsVarScore: real,
    addressesNetGrowthScore: real,
    inOutVarScore: real)

  /** `parseData`: each indicator's score becomes the sub-score of the same name. */
  function ParseData(response: SignalData): SubScores
  {
    SubScores(response.concentrationVar.score, response.largetxsVar.score,
              response.addressesNetGrowth.score, response.inOutVar.score)
  }

  /** The indicators a set of sub-scores was read from. */
  function Unparse(s: SubScores): SignalData
  {
    SignalData(Indicator(s.concentrationVarScore), Indicator(s.largetxsVarScore),
               Indicator(s.addressesNetGrowthScore), Indicator(s.inOutVarScore))
  }

  /** `parseData` loses and mixes nothing: it is a bijection with inverse `Unparse`. */
  lemma ParseDataIsOneToOne(response: SignalData, s: SubScores)
    ensures Unparse(ParseData(response)) == response
    ensures ParseData(Unparse(s)) == s
  {
  }

  const CONCENTRATION_WEIGHT: real := 0.3
  const LARGE_TXS_WEIGHT: real := 0.1
  const NET_GROWTH_WEIGHT: real := 0.3
  const IN_OUT_WEIGHT: real := 0.3

  /** `calculateFinalSentimentScore`. */
  function FinalSentimentScore(s: SubScores): real
  {
    (s.concentrationVarScore * CONCENTRATION_WEIGHT
      + s.largetxsVarScore * LARGE_TXS_WEIGHT
      + s.addressesNetGrowthScore * NET_GROWTH_WEIGHT
      + s.inOutVarScore * IN_OUT_WEIGHT) * SENTIMENT_SCALE
  }

  predicate InUnitInterval(s: SubScores)
  {
    && 0.0 <= s.concentrationVarScore <= 1.0 && 0.0 <= s.largetxsVarScore <= 1.0
    && 0.0 <= s.addressesNetGrowthScore <= 1.0 && 0.0 <= s.inOutVarScore <= 1.0
  }

  predicate AtMost(s: SubScores, t: SubScores)
  {
    && s.concentrationVarScore <= t.concentrationVarScore && s.largetxsVarScore <= t.largetxsVarScore
    && s.addressesNetGrowthScore <= t.addressesNetGrowthScore && s.inOutVarScore <= t.inOutVarScore
  }

  /**
   * The weights are non-negative and sum to 1, so the score is 1e4 times a
   * convex combination of the sub-scores: equal sub-scores x give exactly
   * x * 1e4, and sub-scores in [0, 1] give a score in [0, 10000].
   */
  lemma ScoreIsScaledConvexCombination(s: SubScores, x: real)
    ensures CONCENTRATION_WEIGHT >= 0.0 && LARGE_TXS_WEIGHT >= 0.0 && NET_GROWTH_WEIGHT >= 0.0 && IN_OUT_WEIGHT >= 0.0
    ensures CONCENTRATION_WEIGHT + LARGE_TXS_WEIGHT + NET_GROWTH_WEIGHT + IN_OUT_WEIGHT == 1.0
    ensures FinalSentimentScore(SubScores(x, x, x, x)) == x * SENTIMENT_SCALE
    ensures InUnitInterval(s) ==> 0.0 <= FinalSentimentScore(s) <= SENTIMENT_SCALE
  {
  }

  /** The score never decreases when any sub-score increases. */
  lemma ScoreIsMonotone(s: SubScores, t: SubScores)
    requires AtMost(s, t)
    ensures FinalSentimentScore(s) <= FinalSentimentScore(t)
  {
  }

  /** The secrets the script reads; None when unset. */
  datatype Secrets = Secrets(cryptoCompareKey: Option<string>, marketDataToken: Option<string>)

  /** A secret is usable when it is set and not the empty string. */
  predicate Present(secret: Option<string>)
  {
    secret.Some? && secret.value != ""
  }

  /** A trading-signals response: its `Response` status and its `Data`. */
  datatype TradingSignalsResponse = TradingSignalsResponse(Response: string, Data: SignalData)

  /** A GVZ quote response: its status `s` and the first element of `last`. */
  datatype GvzResponse = GvzResponse(s: string, lastValue: real)

  /** The error thrown for a missing secret. */
  datatype MissingSecret = MissingCryptoCompareKey | MissingMarketDataToken

  /** Which check made the script return without a result. */
  datatype FailedResponse = TradingSignalsFailed | GvzFailed

  /** How a run of the script ends. */
  datatype SourceOutcome =
    | Threw(missing: MissingSecret)
    | NoResult(failed: FailedResponse)
    | Scores(btc: int, eth: int, gvz: int)

  /** One run of the script, given its secrets and what the three requests returned. */
  function RunSource(secrets: Secrets, btc: TradingSignalsResponse, eth: TradingSignalsResponse, gvz: GvzResponse): SourceOutcome
  {
    if !Present(secrets.cryptoCompareKey) then Threw(MissingCryptoCompareKey)
    else if !Present(secrets.marketDataToken) then Threw(MissingMarketDataToken)
    else if btc.Response != "Success" || eth.Response != "Success" then NoResult(TradingSignalsFailed)
    else if gvz.s != "ok" then NoResult(GvzFailed)
    else
      var btcScore := FinalSentimentScore(ParseData(btc.Data));
      var ethScore := FinalSentimentScore(ParseData(eth.Data));
      Scores(MathRound(btcScore), MathRound(ethScore), MathRound(gvz.lastValue * GVZ_SCALE))
  }

  /**
   * The checks come in order: a missing CryptoCompare key throws whatever
   * else holds, a missing market-data token throws next, and a failed
   * trading-signals response ends the run before the GVZ status is looked at.
   */
  lemma ChecksInOrder(secrets: Secrets, btc: TradingSignalsResponse, eth: TradingSignalsResponse, gvz: GvzResponse)
    ensures !Present(secrets.cryptoCompareKey) ==> RunSource(secrets, btc, eth, gvz) == Threw(MissingCryptoCompareKey)
    ensures Present(secrets.cryptoCompareKey) && !Present(secrets.marketDataToken) ==>
              RunSource(secrets, btc, eth, gvz) == Threw(MissingMarketDataToken)
    ensures Present(secrets.cryptoCompareKey) && Present(secrets.marketDataToken)
            && (btc.Response != "Success" || eth.Response != "Success") ==>
              RunSource(secrets, btc, eth, gvz) == NoResult(TradingSignalsFailed)
  {
  }

  /**
   * The script yields scores exactly when both secrets are present, both
   * trading-signal responses succeeded and the GVZ status is "ok"; the triple
   * is then the BTC score, the ETH score and GVZ times 100, in that order, each
   * passed through `Math.round` and so within one half of the unrounded value;
   * the two sentiment scores lie in [0, 10000] when all their sub-scores lie
   * in [0, 1].
   */
  lemma ScoresWhenAllChecksPass(secrets: Secrets, btc: TradingSignalsResponse, eth: TradingSignalsResponse, gvz: GvzResponse)
    ensures var r := RunSource(secrets, btc, eth, gvz);
      r.Scores? <==>
        Present(secrets.cryptoCompareKey) && Present(secrets.marketDataToken)
        && btc.Response == "Success" && eth.Response == "Success" && gvz.s == "ok"
    ensures var r := RunSource(secrets, btc, eth, gvz);
      r.Scores? ==>
        r == Scores(MathRound(FinalSentimentScore(ParseData(btc.Data))),
                    MathRound(FinalSentimentScore(ParseData(eth.Data))),
                    MathRound(gvz.lastValue * GVZ_SCALE))
    ensures var r := RunSource(secrets, btc, eth, gvz);
      r.Scores? ==>
        && -0.5 <= r.btc as real - FinalSentimentScore(ParseData(btc.Data)) <= 0.5
        && -0.5 <= r.eth as real - FinalSentimentScore(ParseData(eth.Data)) <= 0.5
        && -0.5 <= r.gvz as real - gvz.lastValue * GVZ_SCALE <= 0.5
        && (InUnitInterval(ParseData(btc.Data)) ==> 0 <= r.btc <= 10000)
        && (InUnitInterval(ParseData(eth.Data)) ==> 0 <= r.eth <= 10000)
  {
    var r := RunSource(secrets, btc, eth, gvz);
    if r.Scores? {
      ScoreIsScaledConvexCombination(ParseData(btc.Data), 0.0);
      ScoreIsScaledConvexCombination(ParseData(eth.Data), 0.0);
    }
  }
}
