/** The strategy factory: a configured strategy name selects the strategy
    the bot runs. */
module StrategyFactory {
  import opened Wrappers
  import opened Model
  import opened Config
  import opened CycleStrategy

  /** The strategies the factory can build. The cross strategy carries only
      its name and periods: its analysis returns the zero signal. */
  datatype TradingStrategy =
    | Cross(name: string, movingAverageCross: MovingAverageCross)
    | Cycle(cycle: MovingAverageCycleStrategy)

  /** The name a strategy was built with. */
  function GetName(s: TradingStrategy): (n: string)
    ensures s.Cross? ==> n == s.name
    ensures s.Cycle? ==> n == s.cycle.name
  {
    match s
    case Cross(name, _) => name
    case Cycle(cycle) => cycle.name
  }

  const CrossStrategyName: string := "moving-average-cross"
  const CycleStrategyName: string := "moving-average-cycle"

  /** Builds the strategy the configuration names, with the configured
      periods; a cycle strategy starts from the zero stage. Any other name
      builds nothing. */
  method CreateStrategy(tradingConfig: TradingConfig) returns (s: Option<TradingStrategy>)
    ensures tradingConfig.strategy == CrossStrategyName ==>
              s == Some(Cross(tradingConfig.strategy, tradingConfig.movingAverageCross))
    ensures tradingConfig.strategy == CycleStrategyName ==>
              && s.Some? && s.value.Cycle? && fresh(s.value.cycle)
              && s.value.cycle.movingAverageCycle == tradingConfig.movingAverageCycle
              && s.value.cycle.stage == ZeroStage
    ensures s.Some? ==> GetName(s.value) == tradingConfig.strategy
    ensures s.None? <==> tradingConfig.strategy != CrossStrategyName && tradingConfig.strategy != CycleStrategyName
  {
    var strategy := tradingConfig.strategy;
    if strategy == CrossStrategyName {
      return Some(Cross(tradingConfig.strategy, tradingConfig.movingAverageCross));
    } else if strategy == CycleStrategyName {
      var cycle := new MovingAverageCycleStrategy(tradingConfig.strategy, tradingConfig.movingAverageCycle);
      return Some(Cycle(cycle));
    } else {
      return None;
    }
  }

  /** A freshly built cycle strategy reports direction NONE on its first
      analysis, whatever the candles. */
  lemma FirstAnalysisHasNoDirection(name: string, c: MovingAverageCycle, market: string, candles: seq<Candle>,
                                    currentTime: string, formatMA: RealFormatter)
    requires EnoughCandles(c, |candles|)
    ensures AnalyzeStep(name, c, ZeroStage, market, candles, currentTime, formatMA).stage.value.stageDir
            == STAGE_DIR_NONE
  {
    NoDirectionAfterUndeterminedStage(ZeroStage, Averages(c, candles, 0));
  }
}
