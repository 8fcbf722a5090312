/** The orchestrator: the markets the bot trades, the latest signal of each
    market, the ledger, and one analysis cycle over all markets followed by
    the report. The exchange's answers, the clock and the Telegram settings
    are parameters of a cycle; scheduling is not modelled. */
module TradingBotService {
  import opened Wrappers
  import opened Model
  import opened Config
  import opened CycleStrategy
  import OS = OrderService
  import opened MarketHandler
  import opened StrategyFactory
  import opened AlertHandler

  // ---------------------------------------------------------------------------
  // One cycle over the markets, as functions

  /** Candles fit one analysis: every window is inside them and the newest
      price is not zero (a BUY divides the order amount by it). */
  predicate Analyzable(c: MovingAverageCycle, candles: seq<Candle>) {
    EnoughCandles(c, |candles|) && candles[0].tradePrice != 0.0
  }

  /** The candles each market's fetch gives. */
  function CandlesOf(candleConfig: CandleConfig, fetched: seq<Fetch<seq<Candle>>>): (candles: seq<seq<Candle>>)
    ensures |candles| == |fetched|
    ensures forall i :: 0 <= i < |fetched| ==> candles[i] == GetCandles(candleConfig, fetched[i])
  {
    seq(|fetched|, i requires 0 <= i < |fetched| => GetCandles(candleConfig, fetched[i]))
  }

  /** The signals of one cycle: the markets analysed in order by the one
      strategy instance, each analysis starting from the stage the previous
      one stored (for the first, the stage `stored`). */
  function CycleRun(name: string, c: MovingAverageCycle, stored: Stage, markets: seq<string>,
                    candles: seq<seq<Candle>>, times: seq<string>, formatMA: RealFormatter): (signals: seq<Signal>)
    requires |candles| == |markets| && |times| == |markets|
    requires forall i :: 0 <= i < |candles| ==> Analyzable(c, candles[i])
    ensures |signals| == |markets|
    ensures forall i :: 0 <= i < |markets| ==>
              && signals[i].market == markets[i]
              && |candles[i]| > 0 && signals[i].currentPrice == candles[i][0].tradePrice
              && signals[i].stage.Some? && IsNamedStage(signals[i].stage.value.stageNumber)
    ensures BuysPriced(signals)
    decreases |markets|
  {
    if markets == [] then []
    else
      assert Analyzable(c, candles[0]);
      var s := AnalyzeStep(name, c, stored, markets[0], candles[0], times[0], formatMA);
      [s] + CycleRun(name, c, s.stage.value, markets[1..], candles[1..], times[1..], formatMA)
  }

  /** The stage stored after a run of signals. */
  function FinalStage(stored: Stage, signals: seq<Signal>): Stage
    requires signals != [] ==> signals[|signals| - 1].stage.Some?
  {
    if signals == [] then stored else signals[|signals| - 1].stage.value
  }

  /** The i-th signal of a run is the analysis of the i-th market from the
      stage the signals before it left stored. */
  lemma {:induction false} CycleRunAt(name: string, c: MovingAverageCycle, stored: Stage, markets: seq<string>,
                                      candles: seq<seq<Candle>>, times: seq<string>, formatMA: RealFormatter, i: nat)
    requires |candles| == |markets| && |times| == |markets|
    requires forall k :: 0 <= k < |candles| ==> Analyzable(c, candles[k])
    requires i < |markets|
    ensures var run := CycleRun(name, c, stored, markets, candles, times, formatMA);
            && Analyzable(c, candles[i])
            && run[i] == AnalyzeStep(name, c, FinalStage(stored, run[..i]), markets[i], candles[i], times[i], formatMA)
    decreases i
  {
    var run := CycleRun(name, c, stored, markets, candles, times, formatMA);
    var s := AnalyzeStep(name, c, stored, markets[0], candles[0], times[0], formatMA);
    var rest := CycleRun(name, c, s.stage.value, markets[1..], candles[1..], times[1..], formatMA);
    assert run == [s] + rest;
    if i > 0 {
      assert forall k :: 0 <= k < |candles[1..]| ==> candles[1..][k] == candles[k + 1];
      CycleRunAt(name, c, s.stage.value, markets[1..], candles[1..], times[1..], formatMA, i - 1);
      assert run[i] == rest[i - 1];
      assert FinalStage(stored, run[..i]) == FinalStage(s.stage.value, rest[..i - 1]);
    }
  }

  /** `run` is what analysing `markets` in order gives, read one step at a
      time: the i-th signal is the analysis of the i-th market's candles from
      the stage the signals before it left stored. */
  ghost predicate StepwiseRun(name: string, c: MovingAverageCycle, stored: Stage, markets: seq<string>,
                              candles: seq<seq<Candle>>, times: seq<string>, formatMA: RealFormatter,
                              run: seq<Signal>)
  {
    && |candles| == |markets| && |times| == |markets| && |run| == |markets|
    && (forall k :: 0 <= k < |candles| ==> Analyzable(c, candles[k]))
    && BuysPriced(run) && (forall k :: 0 <= k < |run| ==> run[k].stage.Some?)
    && forall k {:trigger FinalStage(stored, run[..k])} :: 0 <= k < |run| ==>
         run[k] == AnalyzeStep(name, c, FinalStage(stored, run[..k]), markets[k], candles[k], times[k], formatMA)
  }

  /** The run of a cycle is read step by step. */
  lemma CycleRunSteps(name: string, c: MovingAverageCycle, stored: Stage, markets: seq<string>,
                      candles: seq<seq<Candle>>, times: seq<string>, formatMA: RealFormatter)
    requires |candles| == |markets| && |times| == |markets|
    requires forall k :: 0 <= k < |candles| ==> Analyzable(c, candles[k])
    ensures StepwiseRun(name, c, stored, markets, candles, times, formatMA,
                        CycleRun(name, c, stored, markets, candles, times, formatMA))
  {
    forall k | 0 <= k < |markets|
      ensures var run := CycleRun(name, c, stored, markets, candles, times, formatMA);
              run[k] == AnalyzeStep(name, c, FinalStage(stored, run[..k]), markets[k], candles[k], times[k], formatMA)
    {
      CycleRunAt(name, c, stored, markets, candles, times, formatMA, k);
    }
  }

  lemma StepwiseAt(name: string, c: MovingAverageCycle, stored: Stage, markets: seq<string>,
                   candles: seq<seq<Candle>>, times: seq<string>, formatMA: RealFormatter, run: seq<Signal>, i: nat)
    requires StepwiseRun(name, c, stored, markets, candles, times, formatMA, run)
    requires i < |run|
    ensures run[..i] == [] || run[..i][i - 1].stage.Some?
    ensures run[i] == AnalyzeStep(name, c, FinalStage(stored, run[..i]), markets[i], candles[i], times[i], formatMA)
  {
  }

  /** The step-by-step reading fixes the run: two runs read step by step
      from the same stage over the same markets agree signal by signal. */
  lemma {:induction false} StepwiseUnique(name: string, c: MovingAverageCycle, stored: Stage, markets: seq<string>,
                                          candles: seq<seq<Candle>>, times: seq<string>, formatMA: RealFormatter,
                                          run1: seq<Signal>, run2: seq<Signal>, k: nat)
    requires StepwiseRun(name, c, stored, markets, candles, times, formatMA, run1)
    requires StepwiseRun(name, c, stored, markets, candles, times, formatMA, run2)
    requires k < |run1|
    ensures run1[k] == run2[k]
    decreases k
  {
    StepwiseAt(name, c, stored, markets, candles, times, formatMA, run1, k);
    StepwiseAt(name, c, stored, markets, candles, times, formatMA, run2, k);
    if k > 0 {
      StepwiseUnique(name, c, stored, markets, candles, times, formatMA, run1, run2, k - 1);
      assert FinalStage(stored, run1[..k]) == run1[k - 1].stage.value;
      assert FinalStage(stored, run2[..k]) == run2[k - 1].stage.value;
    }
  }

  /** A run read step by step is the cycle's run. */
  lemma StepwiseRunIsCycleRun(name: string, c: MovingAverageCycle, stored: Stage, markets: seq<string>,
                              candles: seq<seq<Candle>>, times: seq<string>, formatMA: RealFormatter,
                              run: seq<Signal>)
    requires StepwiseRun(name, c, stored, markets, candles, times, formatMA, run)
    ensures run == CycleRun(name, c, stored, markets, candles, times, formatMA)
  {
    var cycleRun := CycleRun(name, c, stored, markets, candles, times, formatMA);
    CycleRunSteps(name, c, stored, markets, candles, times, formatMA);
    forall k | 0 <= k < |run| ensures run[k] == cycleRun[k] {
      StepwiseUnique(name, c, stored, markets, candles, times, formatMA, run, cycleRun, k);
    }
  }

  /** Within a cycle, each market's direction compares its stage with the
      stage of the market analysed just before it (the first market with the
      stage stored before the cycle), not with that market's own last stage. */
  lemma CycleRunDirections(name: string, c: MovingAverageCycle, stored: Stage, markets: seq<string>,
                            candles: seq<seq<Candle>>, times: seq<string>, formatMA: RealFormatter, i: nat)
    requires |candles| == |markets| && |times| == |markets|
    requires forall k :: 0 <= k < |candles| ==> Analyzable(c, candles[k])
    requires i < |markets|
    ensures var signals := CycleRun(name, c, stored, markets, candles, times, formatMA);
            var before := if i == 0 then stored.stageNumber else signals[i - 1].stage.value.stageNumber;
            signals[i].stage.value.stageDir == DirectionOf(before, signals[i].stage.value.stageNumber)
  {
    CycleRunAt(name, c, stored, markets, candles, times, formatMA, i);
    var signals := CycleRun(name, c, stored, markets, candles, times, formatMA);
    var last := FinalStage(stored, signals[..i]);
    assert last.stageNumber == if i == 0 then stored.stageNumber else signals[i - 1].stage.value.stageNumber;
  }

  /** The signal map after storing a run of signals in order: each signal
      replaces the entry of its market. */
  function StoreAll(latest: map<string, Signal>, signals: seq<Signal>): map<string, Signal>
    decreases |signals|
  {
    if signals == [] then latest
    else
      var n := |signals| - 1;
      StoreAll(latest, signals[..n])[signals[n].market := signals[n]]
  }

  /** A market that no signal of the run names keeps its entry, or its
      absence. */
  lemma {:induction false} StoreAllUntouched(latest: map<string, Signal>, signals: seq<Signal>, market: string)
    requires forall i :: 0 <= i < |signals| ==> signals[i].market != market
    ensures market in StoreAll(latest, signals) <==> market in latest
    ensures market in latest ==> StoreAll(latest, signals)[market] == latest[market]
    decreases |signals|
  {
    if signals != [] {
      StoreAllUntouched(latest, signals[..|signals| - 1], market);
    }
  }

  /** A market's entry is the last signal of the run that names it. */
  lemma {:induction false} StoreAllLastWins(latest: map<string, Signal>, signals: seq<Signal>, i: nat)
    requires i < |signals|
    requires forall j :: i < j < |signals| ==> signals[j].market != signals[i].market
    ensures signals[i].market in StoreAll(latest, signals)
    ensures StoreAll(latest, signals)[signals[i].market] == signals[i]
    decreases |signals|
  {
    var n := |signals| - 1;
    if i < n {
      StoreAllLastWins(latest, signals[..n], i);
    }
  }

  /** Every BUY of the run has a price to divide by. */
  predicate BuysPriced(signals: seq<Signal>) {
    forall i :: 0 <= i < |signals| ==> signals[i].signalType == BUY ==> signals[i].currentPrice != 0.0
  }

  /** The ledger after the orders of a run of signals, in order. */
  function ApplyOrders(positions: map<string, Position>, signals: seq<Signal>, orderAmount: real): map<string, Position>
    requires BuysPriced(signals)
    decreases |signals|
  {
    if signals == [] then positions
    else
      var n := |signals| - 1;
      OS.AfterOrder(ApplyOrders(positions, signals[..n], orderAmount),
                    signals[n].market, signals[n].signalType, signals[n].currentPrice, orderAmount)
  }

  /** A run of orders keeps the ledger at one open BUY per market. */
  lemma {:induction false} ApplyOrdersKeepsLedgerWellFormed(positions: map<string, Position>, signals: seq<Signal>,
                                                            orderAmount: real)
    requires OS.LedgerWellFormed(positions) && BuysPriced(signals)
    ensures OS.LedgerWellFormed(ApplyOrders(positions, signals, orderAmount))
    decreases |signals|
  {
    if signals != [] {
      var n := |signals| - 1;
      ApplyOrdersKeepsLedgerWellFormed(positions, signals[..n], orderAmount);
      OS.AfterOrderKeepsLedgerWellFormed(ApplyOrders(positions, signals[..n], orderAmount),
                                         signals[n].market, signals[n].signalType, signals[n].currentPrice, orderAmount);
    }
  }

  /** A market that no signal of the run names keeps its position, or its
      absence. */
  lemma {:induction false} ApplyOrdersUntouched(positions: map<string, Position>, signals: seq<Signal>,
                                                orderAmount: real, market: string)
    requires BuysPriced(signals)
    requires forall i :: 0 <= i < |signals| ==> signals[i].market != market
    ensures market in ApplyOrders(positions, signals, orderAmount) <==> market in positions
    ensures market in positions ==> ApplyOrders(positions, signals, orderAmount)[market] == positions[market]
    decreases |signals|
  {
    if signals != [] {
      ApplyOrdersUntouched(positions, signals[..|signals| - 1], orderAmount, market);
    }
  }

  /** Extending a prefix of a run by its next signal stores that signal,
      places its order and leaves its stage stored. */
  lemma RunPrefixStep(latest: map<string, Signal>, positions: map<string, Position>, stored: Stage,
                      run: seq<Signal>, i: nat, orderAmount: real)
    requires i < |run| && BuysPriced(run)
    requires forall k :: 0 <= k < |run| ==> run[k].stage.Some?
    ensures BuysPriced(run[..i]) && BuysPriced(run[..i + 1])
    ensures StoreAll(latest, run[..i + 1]) == StoreAll(latest, run[..i])[run[i].market := run[i]]
    ensures ApplyOrders(positions, run[..i + 1], orderAmount)
            == OS.AfterOrder(ApplyOrders(positions, run[..i], orderAmount),
                             run[i].market, run[i].signalType, run[i].currentPrice, orderAmount)
    ensures FinalStage(stored, run[..i + 1]) == run[i].stage.value
  {
    assert run[..i + 1][..i] == run[..i];
  }

  // ---------------------------------------------------------------------------
  // Hold alerts

  /** A HOLD is still worth an alert when the signal has a stage that moved
      forward or backward. */
  function ShouldSendHoldAlert(signal: Signal): (r: bool)
    ensures r <==> && signal.stage.Some?
                   && DirectionIcon(signal.stage.value.stageDir) != ""
                   && signal.stage.value.stageDir != STAGE_DIR_MAINTAIN
  {
    if signal.stage.Some? then
      signal.stage.value.stageDir == STAGE_DIR_NORMAL || signal.stage.value.stageDir == STAGE_DIR_REVERSE
    else
      false
  }

  /** For an analysis, that is exactly when a stage was stored before and the
      new stage differs from it. */
  lemma HoldAlertOnStageChange(name: string, c: MovingAverageCycle, stored: Stage, market: string,
                               candles: seq<Candle>, currentTime: string, formatMA: RealFormatter)
    requires EnoughCandles(c, |candles|)
    ensures var s := AnalyzeStep(name, c, stored, market, candles, currentTime, formatMA);
            ShouldSendHoldAlert(s) <==> stored.stageNumber != STAGE_0 && s.stage.value.stageNumber != stored.stageNumber
  {
    var cur := Averages(c, candles, 0);
    var n := StageOf(cur[0], cur[1], cur[2]);
    assert AnalyzeStep(name, c, stored, market, candles, currentTime, formatMA).stage.value
           == Stage(n, DirectionOf(stored.stageNumber, n), StageDescription(n));
  }

  // ---------------------------------------------------------------------------
  // The report

  /** The index of the first '-'. */
  function DashIndex(s: string): (i: nat)
    requires '-' in s
    ensures i < |s| && s[i] == '-'
    ensures forall k :: 0 <= k < i ==> s[k] != '-'
    decreases |s|
  {
    if s[0] == '-' then 0
    else
      assert '-' in s[1..] by {
        var k :| 0 <= k < |s| && s[k] == '-';
        assert s[1..][k - 1] == '-';
      }
      1 + DashIndex(s[1..])
  }

  /** A dash after a dash-free head is the first dash. */
  lemma DashIndexAfter(head: string, tail: string)
    ensures '-' in head + "-" + tail
    ensures '-' !in head ==> DashIndex(head + "-" + tail) == |head|
  {
    var s := head + "-" + tail;
    assert s[|head|] == '-';
    assert forall k :: 0 <= k < |head| ==> s[k] == head[k];
  }

  /** The second '-'-separated field of a market code: its asset. */
  function AssetOf(market: string): (asset: string)
    requires '-' in market
    ensures '-' !in asset
  {
    var rest := market[DashIndex(market) + 1..];
    if '-' in rest then rest[..DashIndex(rest)] else rest
  }

  /** Splitting at '-' reads the field between the first and the second
      dash, or up to the end. */
  lemma AssetOfFields(head: string, asset: string, tail: string)
    requires '-' !in head && '-' !in asset
    requires tail == [] || tail[0] == '-'
    ensures '-' in head + "-" + asset + tail
    ensures AssetOf(head + "-" + asset + tail) == asset
  {
    var market := head + "-" + asset + tail;
    DashIndexAfter(head, asset + tail);
    assert market == head + "-" + (asset + tail);
    var rest := market[|head| + 1..];
    assert rest == asset + tail;
    if tail != [] {
      DashIndexAfter(asset, tail[1..]);
      assert rest == asset + "-" + tail[1..];
    }
  }

  /** The asset of a configured market is its symbol. */
  lemma AssetOfQuotedSymbol(symbol: string)
    requires '-' !in symbol
    ensures '-' in QuotePrefix + symbol && AssetOf(QuotePrefix + symbol) == symbol
  {
    AssetOfFields("KRW", symbol, "");
    assert "KRW" + "-" + symbol + "" == QuotePrefix + symbol;
  }

  /** A quoted market code has a dash. */
  lemma QuotedHasDash(market: string)
    requires QuotePrefix <= market
    ensures '-' in market
  {
    assert market[3] == '-';
  }

  /** The first position held for `asset`, or the zero position. */
  function FirstPosition(asset: string, positions: seq<Position>): Position
    decreases |positions|
  {
    if positions == [] then ZeroPosition
    else if positions[0].market == asset then positions[0]
    else FirstPosition(asset, positions[1..])
  }

  /** The position found is the zero position when none is held for
      `asset`, and otherwise the earliest one held for it. */
  lemma {:induction false} FirstPositionIsFirst(asset: string, positions: seq<Position>, j: nat)
    requires j <= |positions|
    requires forall k :: 0 <= k < j ==> positions[k].market != asset
    ensures j == |positions| ==> FirstPosition(asset, positions) == ZeroPosition
    ensures j < |positions| && positions[j].market == asset ==> FirstPosition(asset, positions) == positions[j]
    decreases j
  {
    if j > 0 {
      FirstPositionIsFirst(asset, positions[1..], j - 1);
    }
  }

  /** The first quoted price of `asset`, or the empty text. */
  function FirstPrice(asset: string, prices: seq<Price>): string
    decreases |prices|
  {
    if prices == [] then ""
    else if prices[0].asset == asset then prices[0].price
    else FirstPrice(asset, prices[1..])
  }

  /** The price found is the empty text when none is quoted for `asset`, and
      otherwise the earliest quote for it. */
  lemma {:induction false} FirstPriceIsFirst(asset: string, prices: seq<Price>, j: nat)
    requires j <= |prices|
    requires forall k :: 0 <= k < j ==> prices[k].asset != asset
    ensures j == |prices| ==> FirstPrice(asset, prices) == ""
    ensures j < |prices| && prices[j].asset == asset ==> FirstPrice(asset, prices) == prices[j].price
    decreases j
  {
    if j > 0 {
      FirstPriceIsFirst(asset, prices[1..], j - 1);
    }
  }

  /** The report line of one signal. */
  function ActionOf(signal: Signal, positions: seq<Position>, prices: seq<Price>): Action
    requires '-' in signal.market
  {
    var asset := AssetOf(signal.market);
    Action(signal.market, signal, FirstPosition(asset, positions), FirstPrice(asset, prices))
  }

  /** One report line per signal, in order: the signal, the first position
      held for its asset, and the first quoted price of that asset. */
  method CreateActions(signals: seq<Signal>, positions: seq<Position>, prices: seq<Price>)
    returns (actions: seq<Action>)
    requires forall i :: 0 <= i < |signals| ==> '-' in signals[i].market
    ensures |actions| == |signals|
    ensures forall i :: 0 <= i < |signals| ==> actions[i] == ActionOf(signals[i], positions, prices)
  {
    actions := [];
    for i := 0 to |signals|
      invariant |actions| == i
      invariant forall k :: 0 <= k < i ==> actions[k] == ActionOf(signals[k], positions, prices)
    {
      var signal := signals[i];
      var asset := AssetOf(signal.market);
      var position := ZeroPosition;
      ghost var held := |positions|;
      for j := 0 to |positions|
        invariant position == ZeroPosition && held == |positions|
        invariant forall k :: 0 <= k < j ==> positions[k].market != asset
      {
        if asset == positions[j].market {
          position := positions[j];
          held := j;
          break;
        }
      }
      FirstPositionIsFirst(asset, positions, held);

      var usdtPrice := "";
      ghost var quoted := |prices|;
      for j := 0 to |prices|
        invariant usdtPrice == "" && quoted == |prices|
        invariant forall k :: 0 <= k < j ==> prices[k].asset != asset
      {
        if prices[j].asset == asset {
          usdtPrice := prices[j].price;
          quoted := j;
          break;
        }
      }
      FirstPriceIsFirst(asset, prices, quoted);

      var action := Action(signal.market, signal, position, usdtPrice);
      assert action == ActionOf(signal, positions, prices);
      actions := actions + [action];
    }
  }

  /** The signals of a report, in order. */
  function ActionSignals(actions: seq<Action>): (signals: seq<Signal>)
    ensures |signals| == |actions|
    ensures forall i :: 0 <= i < |actions| ==> signals[i] == actions[i].signal
  {
    seq(|actions|, i requires 0 <= i < |actions| => actions[i].signal)
  }

  // ---------------------------------------------------------------------------
  // The bot

  class TradingBot {
    var strategy: Option<TradingStrategy>
    var validateMarkets: seq<string>
    var latestSignal: map<string, Signal>
    const orderService: OS.OrderService

    /** Every market carries the quote prefix; each stored signal is filed
        under its own market and its stage, if any, has a name. */
    ghost predicate Valid()
      reads this
    {
      && (forall i :: 0 <= i < |validateMarkets| ==> QuotePrefix <= validateMarkets[i])
      && (forall m :: m in latestSignal ==>
            latestSignal[m].market == m && QuotePrefix <= m && StageNamed(latestSignal[m]))
    }

    /** Validates the configured markets against the live list, with an empty
        signal map, an empty ledger and no strategy yet. */
    constructor Initialize(configured: seq<string>, live: Fetch<seq<MarketInfo>>)
      ensures validateMarkets == ValidMarkets(configured, live)
      ensures latestSignal == map[] && strategy.None?
      ensures fresh(orderService) && orderService.positions == map[]
      ensures Valid()
    {
      var markets := ValidateAndFilterMarkets(configured, live);
      validateMarkets := markets;
      latestSignal := map[];
      orderService := new OS.OrderService();
      strategy := None;
    }

    /** Refuses to start without markets; otherwise builds the configured
        strategy. */
    method RunTradingBot(tradingConfig: TradingConfig) returns (started: bool)
      requires Valid()
      modifies this
      ensures started <==> validateMarkets != []
      ensures validateMarkets == old(validateMarkets) && latestSignal == old(latestSignal)
      ensures !started ==> strategy == old(strategy)
      ensures started ==> (strategy.Some? ==> GetName(strategy.value) == tradingConfig.strategy)
      ensures started ==> (strategy.None? <==> tradingConfig.strategy != CrossStrategyName
                                               && tradingConfig.strategy != CycleStrategyName)
      ensures started && tradingConfig.strategy == CycleStrategyName ==>
                && strategy.Some? && strategy.value.Cycle? && fresh(strategy.value.cycle)
                && strategy.value.cycle.movingAverageCycle == tradingConfig.movingAverageCycle
                && strategy.value.cycle.stage == ZeroStage
      ensures Valid()
    {
      if |validateMarkets| == 0 {
        return false;
      }
      strategy := CreateStrategy(tradingConfig);
      return true;
    }

    /** The market's latest signal, or the zero signal. */
    function GetLatestSignal(market: string): (signal: Signal)
      reads this
      ensures market in latestSignal ==> signal == latestSignal[market]
      ensures market !in latestSignal ==> signal == ZeroSignal
      ensures Valid() && market in latestSignal ==> signal.market == market
    {
      if market in latestSignal then latestSignal[market] else ZeroSignal
    }

    /** Every stored signal once, in the map's iteration order (which is
        unspecified, so it is chosen here): `order` lists the markets. */
    method GetAllLatestSignals() returns (signals: seq<Signal>, ghost order: seq<string>)
      ensures |signals| == |order| == |latestSignal|
      ensures forall i :: 0 <= i < |order| ==> order[i] in latestSignal && signals[i] == latestSignal[order[i]]
      ensures forall i, j :: 0 <= i < j < |order| ==> order[i] != order[j]
      ensures forall m :: m in latestSignal ==> m in order
    {
      signals := [];
      order := [];
      var keys := latestSignal.Keys;
      while keys != {}
        invariant keys <= latestSignal.Keys
        invariant |signals| == |order| && |order| + |keys| == |latestSignal.Keys|
        invariant forall i :: 0 <= i < |order| ==>
                    order[i] in latestSignal && order[i] !in keys && signals[i] == latestSignal[order[i]]
        invariant forall i, j :: 0 <= i < j < |order| ==> order[i] != order[j]
        invariant forall m :: m in latestSignal ==> m in keys || m in order
        decreases |keys|
      {
        var m :| m in keys;
        signals := signals + [latestSignal[m]];
        order := order + [m];
        keys := keys - {m};
      }
    }

    /** Stores the signal as its market's latest and places its order: BUY
        and SELL go to the ledger, anything else changes nothing there. */
    method HandleSignal(signal: Signal, orderAmount: real)
      requires signal.signalType == BUY ==> signal.currentPrice != 0.0
      modifies this, orderService
      ensures latestSignal == old(latestSignal)[signal.market := signal]
      ensures orderService.positions == OS.AfterOrder(old(orderService.positions), signal.market,
                                                      signal.signalType, signal.currentPrice, orderAmount)
      ensures strategy == old(strategy) && validateMarkets == old(validateMarkets)
      ensures old(Valid()) && QuotePrefix <= signal.market && StageNamed(signal) ==> Valid()
    {
      latestSignal := latestSignal[signal.market := signal];
      if signal.signalType == BUY {
        orderService.PlaceOrder(signal.market, BUY, signal.currentPrice, orderAmount);
      } else if signal.signalType == SELL {
        orderService.PlaceOrder(signal.market, SELL, signal.currentPrice, orderAmount);
      }
    }

    /** The bot's state after handling the first `i` signals of `run`,
        starting from the signal map `latest`, the ledger `positions` and the
        stage `stored`. */
    ghost predicate HandledPrefix(run: seq<Signal>, i: nat, latest: map<string, Signal>,
                                  positions: map<string, Position>, stored: Stage, orderAmount: real)
      requires i <= |run| && BuysPriced(run)
      requires forall k :: 0 <= k < |run| ==> run[k].stage.Some?
      reads this, orderService, strategy.value.cycle
      requires strategy.Some? && strategy.value.Cycle?
    {
      && latestSignal == StoreAll(latest, run[..i])
      && orderService.positions == ApplyOrders(positions, run[..i], orderAmount)
      && strategy.value.cycle.stage == FinalStage(stored, run[..i])
    }

    /** One step of the analysis: analyses one market and handles its
        signal, which is `expected`, the analysis from the stored stage. */
    method AnalyzeMarket(market: string, candles: seq<Candle>, currentTime: string, formatMA: RealFormatter,
                         orderAmount: real, ghost expected: Signal)
      requires Valid() && QuotePrefix <= market
      requires strategy.Some? && strategy.value.Cycle?
      requires Analyzable(strategy.value.cycle.movingAverageCycle, candles)
      requires var cycle := strategy.value.cycle;
               expected == AnalyzeStep(cycle.name, cycle.movingAverageCycle, cycle.stage, market, candles,
                                       currentTime, formatMA)
      modifies this, orderService, strategy.value.cycle
      ensures Valid()
      ensures strategy == old(strategy) && validateMarkets == old(validateMarkets)
      ensures latestSignal == old(latestSignal)[market := expected]
      ensures orderService.positions == OS.AfterOrder(old(orderService.positions), market, expected.signalType,
                                                      expected.currentPrice, orderAmount)
      ensures strategy.value.cycle.stage == expected.stage.value
    {
      var signal := strategy.value.cycle.Analyze(market, candles, currentTime, formatMA);
      HandleSignal(signal, orderAmount);
    }

    /** The analysis half of a cycle: analyses every market in order with
        the cycle strategy and handles each signal. `fetched[i]` and
        `times[i]` are the candles fetched and the clock for the i-th market; `run` holds the signal each analysis returns, each from
        the stage the analyses before it left stored. */
    method AnalyzeMarkets(candles: seq<seq<Candle>>, times: seq<string>,
                          formatMA: RealFormatter, orderAmount: real, ghost run: seq<Signal>)
      requires Valid()
      requires strategy.Some? && strategy.value.Cycle?
      requires var cycle := strategy.value.cycle;
               StepwiseRun(cycle.name, cycle.movingAverageCycle, cycle.stage, validateMarkets, candles, times,
                           formatMA, run)
      modifies this, orderService, strategy.value.cycle
      ensures Valid()
      ensures strategy == old(strategy) && validateMarkets == old(validateMarkets)
      ensures latestSignal == StoreAll(old(latestSignal), run)
      ensures orderService.positions == ApplyOrders(old(orderService.positions), run, orderAmount)
      ensures strategy.value.cycle.stage == FinalStage(old(strategy.value.cycle.stage), run)
    {
      var cycle := strategy.value.cycle;
      for i := 0 to |validateMarkets|
        invariant Valid()
        invariant strategy == old(strategy) && validateMarkets == old(validateMarkets)
        invariant HandledPrefix(run, i, old(latestSignal), old(orderService.positions), old(cycle.stage), orderAmount)
      {
        RunPrefixStep(old(latestSignal), old(orderService.positions), old(cycle.stage), run, i, orderAmount);
        AnalyzeMarket(validateMarkets[i], candles[i], times[i], formatMA, orderAmount, run[i]);
      }
      assert run[..|validateMarkets|] == run;
    }

    /** The report lines of a cycle: every stored signal once, in the
        order `order` lists the markets, with the position held and the price
        quoted for its asset. */
    method CollectActions(positions: seq<Position>, prices: seq<Price>)
      returns (actions: seq<Action>, ghost order: seq<string>)
      requires Valid()
      ensures |actions| == |order| == |latestSignal|
      ensures forall i, j :: 0 <= i < j < |order| ==> order[i] != order[j]
      ensures forall m :: m in latestSignal ==> m in order
      ensures forall i :: 0 <= i < |order| ==>
                && order[i] in latestSignal && '-' in order[i] && actions[i].market == order[i]
                && actions[i] == ActionOf(latestSignal[order[i]], positions, prices)
      ensures AllStagesNamed(ActionSignals(actions))
    {
      var signals;
      signals, order := GetAllLatestSignals();
      forall i | 0 <= i < |signals| ensures '-' in signals[i].market {
        QuotedHasDash(order[i]);
      }
      actions := CreateActions(signals, positions, prices);
      assert ActionSignals(actions) == signals;
    }

    /** One cycle: the analysis of every market, then the report. */
    method RunTask(candleConfig: CandleConfig, fetched: seq<Fetch<seq<Candle>>>, times: seq<string>,
                   formatMA: RealFormatter, orderAmount: real, positions: seq<Position>, prices: seq<Price>,
                   telegram: TelegramConfig, formatPrice: RealFormatter)
      returns (actions: seq<Action>, ghost order: seq<string>, outgoing: Option<Outgoing>)
      requires Valid()
      requires strategy.Some? && strategy.value.Cycle?
      requires |fetched| == |validateMarkets| && |times| == |validateMarkets|
      requires forall i :: 0 <= i < |fetched| ==>
                 Analyzable(strategy.value.cycle.movingAverageCycle, GetCandles(candleConfig, fetched[i]))
      modifies this, orderService, strategy.value.cycle
      ensures Valid()
      ensures strategy == old(strategy) && validateMarkets == old(validateMarkets)
      ensures var cycle := strategy.value.cycle;
              var run := CycleRun(cycle.name, cycle.movingAverageCycle, old(cycle.stage), validateMarkets,
                                  CandlesOf(candleConfig, fetched), times, formatMA);
              && BuysPriced(run)
              && latestSignal == StoreAll(old(latestSignal), run)
              && orderService.positions == ApplyOrders(old(orderService.positions), run, orderAmount)
              && cycle.stage == FinalStage(old(cycle.stage), run)
      ensures |actions| == |order| == |latestSignal|
      ensures forall i, j :: 0 <= i < j < |order| ==> order[i] != order[j]
      ensures forall m :: m in latestSignal ==> m in order
      ensures forall i :: 0 <= i < |order| ==>
                && order[i] in latestSignal && '-' in order[i] && actions[i].market == order[i]
                && actions[i] == ActionOf(latestSignal[order[i]], positions, prices)
      ensures AllStagesNamed(ActionSignals(actions))
      ensures outgoing.Some? <==> SendEnabled(telegram)
      ensures outgoing.Some? ==> outgoing.value.text == JoinedMessages(ActionSignals(actions), formatPrice)
    {
      var candles := CandlesOf(candleConfig, fetched);
      ghost var cycle := strategy.value.cycle;
      ghost var run := CycleRun(cycle.name, cycle.movingAverageCycle, cycle.stage, validateMarkets, candles, times,
                                formatMA);
      CycleRunSteps(cycle.name, cycle.movingAverageCycle, cycle.stage, validateMarkets, candles, times, formatMA);
      AnalyzeMarkets(candles, times, formatMA, orderAmount, run);
      actions, order := CollectActions(positions, prices);
      outgoing := SendTelegramMultiAlert(telegram, ActionSignals(actions), formatPrice);
    }
  }
}
