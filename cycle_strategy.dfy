/** The three-moving-average "cycle" strategy. Candles are ordered newest
    first; a simple moving average over `period` candles starting at `offset`
    is taken for the short, medium and long period at offsets 0 (current)
    and 1 (previous). The strict ordering of the three current averages is a
    stage 0..6, the movement from previous to current averages confirms BUY
    in stage 1 and SELL in stage 4, and the stage is compared with the one
    the strategy stored on its previous call (for whatever market that was)
    to give a direction. */
module CycleStrategy {
  import opened Wrappers
  import opened Model
  import opened Config

  // ---------------------------------------------------------------------------
  // Moving averages

  /** The sum of the trade prices of `candles[start..stop]`. */
  function PriceSum(candles: seq<Candle>, start: nat, stop: nat): real
    requires start <= stop <= |candles|
    decreases stop
  {
    if start == stop then 0.0 else PriceSum(candles, start, stop - 1) + candles[stop - 1].tradePrice
  }

  /** The window of `period` candles from `offset` lies inside the sequence. */
  predicate WindowInRange(candles: seq<Candle>, period: int, offset: int) {
    0 < period && 0 <= offset && offset + period <= |candles|
  }

  /** The simple moving average of the window. */
  function MovingAverage(candles: seq<Candle>, period: int, offset: int): real
    requires WindowInRange(candles, period, offset)
  {
    PriceSum(candles, offset, offset + period) / period as real
  }

  lemma {:induction false} PriceSumBounds(candles: seq<Candle>, start: nat, stop: nat, lo: real, hi: real)
    requires start <= stop <= |candles|
    requires forall i :: start <= i < stop ==> lo <= candles[i].tradePrice <= hi
    ensures (stop - start) as real * lo <= PriceSum(candles, start, stop) <= (stop - start) as real * hi
    decreases stop
  {
    if start < stop {
      PriceSumBounds(candles, start, stop - 1, lo, hi);
      var k := (stop - 1 - start) as real;
      assert (stop - start) as real * lo == k * lo + lo;
      assert (stop - start) as real * hi == k * hi + hi;
    }
  }

  /** A moving average lies between the lowest and the highest price of its
      window. */
  lemma MovingAverageWithinBounds(candles: seq<Candle>, period: int, offset: int, lo: real, hi: real)
    requires WindowInRange(candles, period, offset)
    requires forall i :: offset <= i < offset + period ==> lo <= candles[i].tradePrice <= hi
    ensures lo <= MovingAverage(candles, period, offset) <= hi
  {
    var p := period as real;
    var sum := PriceSum(candles, offset, offset + period);
    PriceSumBounds(candles, offset, offset + period, lo, hi);
    assert p * lo <= sum <= p * hi;
    assert sum / p == sum * (1.0 / p);
    assert lo == (p * lo) * (1.0 / p) && hi == (p * hi) * (1.0 / p);
  }

  lemma {:induction false} PriceSumSplitFirst(candles: seq<Candle>, start: nat, stop: nat)
    requires start < stop <= |candles|
    ensures PriceSum(candles, start, stop) == candles[start].tradePrice + PriceSum(candles, start + 1, stop)
    decreases stop
  {
    if start + 1 < stop {
      PriceSumSplitFirst(candles, start, stop - 1);
    }
  }

  /** The current average of a period exceeds the previous one exactly when
      the newest price exceeds the price `period` candles back, and falls
      below it exactly when the newest price is below that price. */
  lemma MovingAverageMovesWithEndpoints(candles: seq<Candle>, period: int)
    requires WindowInRange(candles, period, 1)
    ensures (MovingAverage(candles, period, 0) > MovingAverage(candles, period, 1))
            <==> (candles[0].tradePrice > candles[period].tradePrice)
    ensures (MovingAverage(candles, period, 0) < MovingAverage(candles, period, 1))
            <==> (candles[0].tradePrice < candles[period].tradePrice)
  {
    PriceSumSplitFirst(candles, 0, period);
    var inner := PriceSum(candles, 1, period);
    var p := period as real;
    assert PriceSum(candles, 0, period) == candles[0].tradePrice + inner;
    assert PriceSum(candles, 1, period + 1) == inner + candles[period].tradePrice;
    var cur := MovingAverage(candles, period, 0);
    var prev := MovingAverage(candles, period, 1);
    assert cur * p == candles[0].tradePrice + inner;
    assert prev * p == inner + candles[period].tradePrice;
    var diff := candles[0].tradePrice - candles[period].tradePrice;
    SignOfScaledDifference(cur, prev, p, diff);
  }

  lemma SignOfScaledDifference(cur: real, prev: real, p: real, diff: real)
    requires p > 0.0 && (cur - prev) * p == diff
    ensures cur > prev <==> diff > 0.0
    ensures cur < prev <==> diff < 0.0
  {
    var x := cur - prev;
    if x > 0.0 {
      assert x * p > 0.0 * p;
    } else if x < 0.0 {
      assert x * p < 0.0 * p;
    } else {
      assert x * p == 0.0;
    }
  }

  // ---------------------------------------------------------------------------
  // Stage, signal and direction

  /** Three averages, short, medium and long, as the source's fixed arrays. */
  predicate IsTriple(ma: seq<real>) {
    |ma| == 3
  }

  /** One of the three averages is strictly larger than the other two. */
  predicate HasStrictMaximum(short: real, medium: real, long: real) {
    (short > medium && short > long) || (medium > short && medium > long) || (long > short && long > medium)
  }

  /** The stage of an ordering of the short, medium and long average. */
  function StageOf(short: real, medium: real, long: real): (n: StageNumber)
    ensures IsNamedStage(n)
    ensures n == STAGE_1 <==> short > medium > long
    ensures n == STAGE_6 <==> short > medium && short > long && medium <= long
    ensures n == STAGE_2 <==> medium > short && medium > long && short > long
    ensures n == STAGE_3 <==> medium > short && medium > long && short <= long
    ensures n == STAGE_4 <==> long > short && long > medium && medium > short
    ensures n == STAGE_5 <==> long > short && long > medium && medium <= short
    ensures n == STAGE_0 <==> !HasStrictMaximum(short, medium, long)
  {
    if short > medium && short > long then
      if medium > long then STAGE_1 else STAGE_6
    else if medium > long && medium > short then
      if short > long then STAGE_2 else STAGE_3
    else if long > medium && long > short then
      if medium > short then STAGE_4 else STAGE_5
    else
      STAGE_0
  }

  // The texts of the stages and of the description prefixes.
  const Stage1Description: string := "안정 상승기, 단/중/장 배치"
  const Stage2Description: string := "상승 추세 끝, 중/단/장 배치"
  const Stage3Description: string := "하락 추세 시작, 중/장/단 배치"
  const Stage4Description: string := "안정 하락기, 장/중/단 배치"
  const Stage5Description: string := "하락 추세 끝, 장/단/중 배치"
  const Stage6Description: string := "상승 추세 시작, 단/장/중 배치"
  const UnknownStageDescription: string := "알 수 없는 단계"
  const BuyPrefix: string := "📈 매수 신호 - "
  const SellPrefix: string := "📉 매도 신호 - "
  const HoldPrefix: string := "⏸️ 관망 - "

  /** The description the strategy gives each stage. */
  function StageDescription(n: StageNumber): string {
    if n == STAGE_1 then Stage1Description
    else if n == STAGE_2 then Stage2Description
    else if n == STAGE_3 then Stage3Description
    else if n == STAGE_4 then Stage4Description
    else if n == STAGE_5 then Stage5Description
    else if n == STAGE_6 then Stage6Description
    else UnknownStageDescription
  }

  /** The signal decided inside the stage classification: BUY when the
      averages are in stage 1 and all three rose, SELL when they are in stage 4
      and all three fell, HOLD otherwise. */
  function SignalOf(cur: seq<real>, prev: seq<real>): (t: SignalType)
    requires IsTriple(cur) && IsTriple(prev)
    ensures IsNamedSignalType(t)
    ensures t == BUY <==> StageOf(cur[0], cur[1], cur[2]) == STAGE_1
                          && cur[0] > prev[0] && cur[1] > prev[1] && cur[2] > prev[2]
    ensures t == SELL <==> StageOf(cur[0], cur[1], cur[2]) == STAGE_4
                           && cur[0] < prev[0] && cur[1] < prev[1] && cur[2] < prev[2]
  {
    var short, medium, long := cur[0], cur[1], cur[2];
    if short > medium && short > long then
      if medium > long && short > prev[0] && medium > prev[1] && long > prev[2] then BUY else HOLD
    else if medium > long && medium > short then
      HOLD
    else if long > medium && long > short then
      if medium > short && short < prev[0] && medium < prev[1] && long < prev[2] then SELL else HOLD
    else
      HOLD
  }

  /** The direction from the stored stage number to the new one: none while
      nothing is stored (number 0), otherwise a flat integer comparison. */
  function DirectionOf(stored: StageNumber, next: StageNumber): (d: StageDir)
    ensures stored == STAGE_0 ==> d == STAGE_DIR_NONE
    ensures stored != STAGE_0 ==> (d == STAGE_DIR_MAINTAIN <==> stored == next)
    ensures stored != STAGE_0 ==> (d == STAGE_DIR_REVERSE <==> stored > next)
    ensures stored != STAGE_0 ==> (d == STAGE_DIR_NORMAL <==> stored < next)
    ensures IsNamedDirection(d)
  {
    if stored != STAGE_0 then
      if stored == next then STAGE_DIR_MAINTAIN
      else if stored > next then STAGE_DIR_REVERSE
      else STAGE_DIR_NORMAL
    else
      STAGE_DIR_NONE
  }

  /** Between two stored stages, moving one way is NORMAL exactly when moving
      back is REVERSE. */
  lemma DirectionReverses(a: StageNumber, b: StageNumber)
    requires a != STAGE_0 && b != STAGE_0
    ensures DirectionOf(a, b) == STAGE_DIR_NORMAL <==> DirectionOf(b, a) == STAGE_DIR_REVERSE
  {
  }

  /** The stage that replaces the stored one after a classification. */
  function NextStage(stored: Stage, cur: seq<real>): (s: Stage)
    requires IsTriple(cur)
    ensures IsNamedStage(s.stageNumber) && IsNamedDirection(s.stageDir)
  {
    var n := StageOf(cur[0], cur[1], cur[2]);
    Stage(n, DirectionOf(stored.stageNumber, n), StageDescription(n))
  }

  // ---------------------------------------------------------------------------
  // Description

  /** The prefix a description starts with, by signal type; empty for a type
      outside BUY, SELL and HOLD. */
  function DescriptionPrefix(t: SignalType): string {
    if t == BUY then BuyPrefix
    else if t == SELL then SellPrefix
    else if t == HOLD then HoldPrefix
    else ""
  }

  /** The text listing each period with its current average. */
  function MAInfo(periods: seq<int>, ma: seq<real>, formatMA: RealFormatter): string
    requires |periods| == 3 && IsTriple(ma)
  {
    "MA" + FormatInt(periods[0]) + ": " + formatMA(ma[0]) + ", "
    + "MA" + FormatInt(periods[1]) + ": " + formatMA(ma[1]) + ", "
    + "MA" + FormatInt(periods[2]) + ": " + formatMA(ma[2])
  }

  /** The description of a signal: the prefix of its type, the description of
      the new stage, a bar and the averages. */
  function GenerateDescription(t: SignalType, stageDesc: string, periods: seq<int>, ma: seq<real>,
                               formatMA: RealFormatter): (d: string)
    requires |periods| == 3 && IsTriple(ma)
    ensures DescriptionPrefix(t) + stageDesc + " | " <= d
    ensures |MAInfo(periods, ma, formatMA)| <= |d|
    ensures d[|d| - |MAInfo(periods, ma, formatMA)|..] == MAInfo(periods, ma, formatMA)
  {
    DescriptionPrefix(t) + stageDesc + " | " + MAInfo(periods, ma, formatMA)
  }

  /** The first character of a description tells the signal type: a rising
      chart for BUY, a falling chart for SELL, the pause sign for HOLD. */
  lemma GenerateDescriptionTellsSignal(t: SignalType, stageDesc: string, periods: seq<int>, ma: seq<real>,
                                       formatMA: RealFormatter)
    requires |periods| == 3 && IsTriple(ma)
    requires IsNamedSignalType(t)
    ensures var d := GenerateDescription(t, stageDesc, periods, ma, formatMA);
            && |d| > 0
            && (d[0] == '📈' <==> t == BUY)
            && (d[0] == '📉' <==> t == SELL)
            && (d[0] == '⏸' <==> t == HOLD)
  {
    var d := GenerateDescription(t, stageDesc, periods, ma, formatMA);
    var prefix := DescriptionPrefix(t);
    assert |prefix| > 0 && prefix <= d;
    assert d[0] == prefix[0];
  }

  /** Descriptions of different signal types never coincide, whatever the
      stage text and the averages. */
  lemma GenerateDescriptionDistinguishesSignals(t1: SignalType, t2: SignalType, stageDesc1: string, stageDesc2: string,
                                                periods: seq<int>, ma1: seq<real>, ma2: seq<real>,
                                                formatMA: RealFormatter)
    requires |periods| == 3 && IsTriple(ma1) && IsTriple(ma2)
    requires IsNamedSignalType(t1) && IsNamedSignalType(t2)
    requires GenerateDescription(t1, stageDesc1, periods, ma1, formatMA)
             == GenerateDescription(t2, stageDesc2, periods, ma2, formatMA)
    ensures t1 == t2
  {
    GenerateDescriptionTellsSignal(t1, stageDesc1, periods, ma1, formatMA);
    GenerateDescriptionTellsSignal(t2, stageDesc2, periods, ma2, formatMA);
  }

  // ---------------------------------------------------------------------------
  // One analysis as a function

  /** The signal of one classification, given the stage stored before it. */
  function CycleSignal(name: string, stored: Stage, market: string, currentPrice: real, currentTime: string,
                       periods: seq<int>, maCurrent: seq<real>, maPrevious: seq<real>,
                       formatMA: RealFormatter): Signal
    requires |periods| == 3 && IsTriple(maCurrent) && IsTriple(maPrevious)
  {
    var stage := NextStage(stored, maCurrent);
    var signalType := SignalOf(maCurrent, maPrevious);
    Signal(signalType, market, currentPrice, currentTime,
           GenerateDescription(signalType, stage.description, periods, maCurrent, formatMA),
           name, Some(stage))
  }

  function Periods(c: MovingAverageCycle): seq<int> {
    [c.shortPeriod, c.mediumPeriod, c.longPeriod]
  }

  /** `count` candles hold every window the strategy averages. */
  predicate EnoughCandles(c: MovingAverageCycle, count: int) {
    && 0 < c.shortPeriod && 0 < c.mediumPeriod && 0 < c.longPeriod
    && c.shortPeriod < count && c.mediumPeriod < count && c.longPeriod < count
  }

  function Averages(c: MovingAverageCycle, candles: seq<Candle>, offset: int): (ma: seq<real>)
    requires EnoughCandles(c, |candles|) && 0 <= offset <= 1
    ensures IsTriple(ma)
  {
    [MovingAverage(candles, c.shortPeriod, offset),
     MovingAverage(candles, c.mediumPeriod, offset),
     MovingAverage(candles, c.longPeriod, offset)]
  }

  /** What one `Analyze` call returns, given the stage stored before it; the
      stage stored after it is the returned signal's stage. */
  function AnalyzeStep(name: string, c: MovingAverageCycle, stored: Stage, market: string,
                       candles: seq<Candle>, currentTime: string, formatMA: RealFormatter): (s: Signal)
    requires EnoughCandles(c, |candles|)
    ensures s.market == market && s.strategyName == name
    ensures s.currentPrice == candles[0].tradePrice
    ensures s.stage.Some? && IsNamedStage(s.stage.value.stageNumber)
    ensures s.stage.value.stageDir == DirectionOf(stored.stageNumber, s.stage.value.stageNumber)
  {
    CycleSignal(name, stored, market, candles[0].tradePrice, currentTime, Periods(c),
                Averages(c, candles, 0), Averages(c, candles, 1), formatMA)
  }

  /** Read on raw prices: an analysis says BUY exactly when the current
      averages are in stage 1 and, for each period, the newest price is above
      the price that many candles back; SELL is the mirror image in stage 4. */
  lemma AnalyzeSignalOnPrices(name: string, c: MovingAverageCycle, stored: Stage, market: string,
                              candles: seq<Candle>, currentTime: string, formatMA: RealFormatter)
    requires EnoughCandles(c, |candles|)
    ensures var s := AnalyzeStep(name, c, stored, market, candles, currentTime, formatMA);
            var cur := Averages(c, candles, 0);
            && (s.signalType == BUY <==>
                  && StageOf(cur[0], cur[1], cur[2]) == STAGE_1
                  && candles[0].tradePrice > candles[c.shortPeriod].tradePrice
                  && candles[0].tradePrice > candles[c.mediumPeriod].tradePrice
                  && candles[0].tradePrice > candles[c.longPeriod].tradePrice)
            && (s.signalType == SELL <==>
                  && StageOf(cur[0], cur[1], cur[2]) == STAGE_4
                  && candles[0].tradePrice < candles[c.shortPeriod].tradePrice
                  && candles[0].tradePrice < candles[c.mediumPeriod].tradePrice
                  && candles[0].tradePrice < candles[c.longPeriod].tradePrice)
  {
    MovingAverageMovesWithEndpoints(candles, c.shortPeriod);
    MovingAverageMovesWithEndpoints(candles, c.mediumPeriod);
    MovingAverageMovesWithEndpoints(candles, c.longPeriod);
  }

  /** A fresh strategy (stored stage number 0) reports no direction, and so
      does every call after one whose averages had no strict maximum. */
  lemma NoDirectionAfterUndeterminedStage(stored: Stage, cur: seq<real>)
    requires IsTriple(cur)
    requires stored.stageNumber == STAGE_0
    ensures NextStage(stored, cur).stageDir == STAGE_DIR_NONE
  {
  }

  /** Two consecutive calls whose averages are in the same determined stage
      report MAINTAIN on the second. */
  lemma SameStageTwiceMaintains(stored: Stage, cur1: seq<real>, cur2: seq<real>)
    requires IsTriple(cur1) && IsTriple(cur2)
    requires StageOf(cur1[0], cur1[1], cur1[2]) == StageOf(cur2[0], cur2[1], cur2[2]) != STAGE_0
    ensures NextStage(NextStage(stored, cur1), cur2).stageDir == STAGE_DIR_MAINTAIN
  {
  }

  /** The comparison is flat, not cyclic: from stage 6 to stage 1 is REVERSE. */
  lemma WrapAroundIsReverse(stored: Stage, cur: seq<real>)
    requires IsTriple(cur)
    requires stored.stageNumber == STAGE_6 && cur[0] > cur[1] > cur[2]
    ensures NextStage(stored, cur).stageDir == STAGE_DIR_REVERSE
  {
  }

  // ---------------------------------------------------------------------------
  // The strategy object

  class MovingAverageCycleStrategy {
    const name: string
    const movingAverageCycle: MovingAverageCycle
    /** The stage of the previous call, whatever market it was for. */
    var stage: Stage

    constructor (name: string, movingAverageCycle: MovingAverageCycle)
      ensures this.name == name && this.movingAverageCycle == movingAverageCycle
      ensures stage == ZeroStage
    {
      this.name := name;
      this.movingAverageCycle := movingAverageCycle;
      this.stage := ZeroStage;
    }

    /** The name the strategy was created with. */
    function GetName(): (n: string)
      ensures n == name
    {
      name
    }

    /** One candle more than the long period; with short <= medium <= long
        that many candles hold every window at offsets 0 and 1. */
    function GetRequiredCandleCount(): (count: int)
      ensures var c := movingAverageCycle;
              0 < c.shortPeriod <= c.mediumPeriod <= c.longPeriod ==> EnoughCandles(c, count)
      ensures forall k :: k < count ==> !EnoughCandles(movingAverageCycle, k)
    {
      movingAverageCycle.longPeriod + 1
    }

    /** The average of the trade prices of `period` candles from `offset`. */
    method CalculateMA(candles: seq<Candle>, period: int, offset: int) returns (ma: real)
      requires WindowInRange(candles, period, offset)
      ensures ma == MovingAverage(candles, period, offset)
    {
      var sum := 0.0;
      for i := offset to offset + period
        invariant sum == PriceSum(candles, offset, i)
      {
        sum := sum + candles[i].tradePrice;
      }
      ma := sum / period as real;
    }

    /** Classifies the averages, stores the new stage and returns the signal
        carrying a copy of it. */
    method CalculateSignal(market: string, currentPrice: real, currentTime: string, periods: seq<int>,
                           maCurrent: seq<real>, maPrevious: seq<real>, formatMA: RealFormatter)
      returns (signal: Signal)
      requires |periods| == 3 && IsTriple(maCurrent) && IsTriple(maPrevious)
      modifies this
      ensures signal == CycleSignal(name, old(stage), market, currentPrice, currentTime, periods,
                                    maCurrent, maPrevious, formatMA)
      ensures signal.stage == Some(stage)
    {
      var currentShortMA, currentMediumMA, currentLongMA := maCurrent[0], maCurrent[1], maCurrent[2];
      var previousShortMA, previousMediumMA, previousLongMA := maPrevious[0], maPrevious[1], maPrevious[2];

      var stageNumber := STAGE_0;
      var stageDescription := UnknownStageDescription;
      var stageDir := STAGE_DIR_NONE;
      var signalType := HOLD;

      if currentShortMA > currentMediumMA && currentShortMA > currentLongMA {
        if currentMediumMA > currentLongMA {
          stageNumber := STAGE_1;
          stageDescription := Stage1Description;
          if currentShortMA > previousShortMA && currentMediumMA > previousMediumMA && currentLongMA > previousLongMA {
            signalType := BUY;
          }
        } else {
          stageNumber := STAGE_6;
          stageDescription := Stage6Description;
        }
      } else if currentMediumMA > currentLongMA && currentMediumMA > currentShortMA {
        if currentShortMA > currentLongMA {
          stageNumber := STAGE_2;
          stageDescription := Stage2Description;
        } else {
          stageNumber := STAGE_3;
          stageDescription := Stage3Description;
        }
      } else if currentLongMA > currentMediumMA && currentLongMA > currentShortMA {
        if currentMediumMA > currentShortMA {
          stageNumber := STAGE_4;
          stageDescription := Stage4Description;
          if currentShortMA < previousShortMA && currentMediumMA < previousMediumMA && currentLongMA < previousLongMA {
            signalType := SELL;
          }
        } else {
          stageNumber := STAGE_5;
          stageDescription := Stage5Description;
        }
      }
      assert stageNumber == StageOf(currentShortMA, currentMediumMA, currentLongMA);
      assert stageDescription == StageDescription(stageNumber);
      assert signalType == SignalOf(maCurrent, maPrevious);

      if stage.stageNumber != STAGE_0 {
        if stage.stageNumber == stageNumber {
          stageDir := STAGE_DIR_MAINTAIN;
        } else if stage.stageNumber > stageNumber {
          stageDir := STAGE_DIR_REVERSE;
        } else if stage.stageNumber < stageNumber {
          stageDir := STAGE_DIR_NORMAL;
        }
      }

      assert stageDir == DirectionOf(stage.stageNumber, stageNumber);
      stage := Stage(stageNumber, stageDir, stageDescription);

      var description := GenerateDescription(signalType, stage.description, periods, maCurrent, formatMA);
      var stageCopy := stage;
      signal := Signal(signalType, market, currentPrice, currentTime, description, GetName(), Some(stageCopy));
    }

    /** Averages the candles for the three periods at offsets 0 and 1 and
        classifies them; the candles must hold every window. */
    method Analyze(market: string, candles: seq<Candle>, currentTime: string, formatMA: RealFormatter)
      returns (signal: Signal)
      requires EnoughCandles(movingAverageCycle, |candles|)
      modifies this
      ensures signal == AnalyzeStep(name, movingAverageCycle, old(stage), market, candles, currentTime, formatMA)
      ensures signal.stage == Some(stage)
    {
      var periods := Periods(movingAverageCycle);
      var maCurrent := new real[3];
      var maPrevious := new real[3];

      for i := 0 to 3
        modifies maCurrent, maPrevious
        invariant forall j :: 0 <= j < i ==> maCurrent[j] == MovingAverage(candles, periods[j], 0)
        invariant forall j :: 0 <= j < i ==> maPrevious[j] == MovingAverage(candles, periods[j], 1)
      {
        maCurrent[i] := CalculateMA(candles, periods[i], 0);
        maPrevious[i] := CalculateMA(candles, periods[i], 1);
      }

      assert maCurrent[..] == Averages(movingAverageCycle, candles, 0);
      assert maPrevious[..] == Averages(movingAverageCycle, candles, 1);
      var currentCandle := candles[0];
      signal := CalculateSignal(market, currentCandle.tradePrice, currentTime, periods,
                                maCurrent[..], maPrevious[..], formatMA);
    }
  }
}
