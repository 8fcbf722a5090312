# go-trading-bot decision engine in Dafny

This project models the decision engine of the go-trading-bot cryptocurrency bot.
The bot trades KRW markets on Upbit, following these steps:

- It keeps the configured assets that the exchange really lists.
- For each market, it computes three moving averages (short, medium and long period) over the latest candles.
- It classifies how the averages are ordered into one of six "stages" of the moving-average cycle, or stage 0 when the order is undetermined.
- It reports whether the stage moved forward, moved back or stayed put since the stage the strategy stored last.
- It emits BUY (stage 1, all averages rising), SELL (stage 4, all averages falling) or HOLD.
- It places a simulated order on an in-memory ledger of positions.
- It remembers the latest signal per market.
- It builds one "action" per remembered signal and sends them as a single Telegram report.

The model has one module per Go source file:

| file | module | models |
|---|---|---|
| `wrappers.dfy` | `Wrappers` | `Option`; `Fetch`, the outcome of an exchange call |
| `model.dfy` | `Model` | stages, directions, signal types, signals, positions, candles, prices, actions |
| `config.dfy` | `Config` | candle API path, minute-unit validation, environment lookups, `strconv.Atoi` |
| `cycle_strategy.dfy` | `CycleStrategy` | the moving-average cycle strategy: a class with a mutable stored stage |
| `strategy_factory.dfy` | `StrategyFactory` | strategy creation from the configured name |
| `order_service.dfy` | `OrderService` | the position ledger: a class whose map the orders update |
| `market_handler.dfy` | `MarketHandler` | market validation against the exchange listing; candle fetching |
| `alert_handler.dfy` | `AlertHandler` | Telegram message text and the send decision |
| `trading_bot_service.dfy` | `TradingBotService` | the bot: one analysis cycle over all markets, the actions and the report |

Each state-changing operation is modelled as a method:

- `MovingAverageCycleStrategy.Analyze` and `CalculateSignal`;
- `OrderService.PlaceOrder`, `SetPosition` and `RemovePosition`;
- `TradingBot.HandleSignal`, `AnalyzeMarkets` and `RunTask`.

Each of these methods is proved against a function on values:

- `AnalyzeStep` is one analysis.
- `AfterOrder` is one order.
- `CycleRun`, `StoreAll` and `ApplyOrders` cover a whole cycle.

The properties are proved about those functions.

The loops of the source become methods with loop invariants:

- `CalculateMA`'s sum;
- `validateMinuteUnit`'s search;
- `validateAndFilterMarkets`' nested filter;
- `GetAllLatestSignals`' map walk;
- `createActions`' two searches with `break`;
- `SendTelegramMultiAlert`'s concatenation;
- `runTask`'s loop over the markets.

Things outside the engine are parameters of the operations that use them:

- the exchange's answers, as `Fetch` values and sequences;
- the clock, as timestamp strings;
- float formatting, as a `RealFormatter`;
- the environment, as a map;
- the Telegram settings.

## Model

| member | source | states |
|---|---|---|
| Model.StageNumberString | internal/model/stage.go:16-18 | the name of a stage is "STAGE_" followed by its digit |
| Model.StageNumberStringInjective | internal/model/stage.go:16-18 | distinct stages have distinct names |
| Model.ZeroStageHasNoNamedDirection | internal/model/stage.go:20-33 | the zero Stage has number 0 and a direction that is none of NONE, MAINTAIN, NORMAL, REVERSE |
| Model.SignalTypeString | internal/model/signal.go:12-14 | the name is "BUY", "SELL" or "HOLD" exactly for that signal type |
| Config.DigitsValueOfFormatNat | config/config.go:128-137 | reading back the decimal digits of a natural number gives the number |
| Config.AtoiFormatInt | config/config.go:128-137 | `Atoi` of a formatted 64-bit integer gives that integer |
| Config.Atoi | config/config.go:128-137 | accepted text is an optional sign followed by at least one digit, and the value is the digits' value negated for '-', within 64 bits |
| Config.AtoiSignedDigits | config/config.go:128-137 | every optional sign followed by digits is accepted exactly when its value fits in 64 bits, with that value |
| Config.AtoiRejectsMalformed | config/config.go:128-137 | the empty text, a lone sign, "12a", "1_0" and " 7" are refused, so the default is used |
| Config.ValidateMinuteUnit | config/config.go:65-76 | the search over the allowed minute units finds the unit exactly when it is one of 1, 3, 5, 10, 15, 30, 60, 240 |
| Config.BuildAPIPath | config/config.go:54-63 | minute candles get "/candles/minutes/<unit>" for a valid unit; other categories get "/candles/<category>"; the path is empty exactly for an invalid minute unit |
| Config.BuildAPIPathCollisions | config/config.go:54-63 | for two configurations with the same non-empty path: two minute configurations have the same unit, two other categories are equal, and a minute configuration shares its path with another category only when that category is "minutes/" followed by the unit |
| Config.MinutePathCollision | config/config.go:54-63 | that collision happens: category "minutes/1" gets the path of one-minute candles |
| Config.GetEnvStr | config/config.go:121-126 | a set, non-empty variable wins; otherwise the default |
| Config.GetEnvInt | config/config.go:128-137 | a variable that parses as an integer wins; a missing or unparsable one gives the default |
| Config.GetEnvIntRoundTrip | config/config.go:128-137 | an integer written to the environment is read back unchanged |
| CycleStrategy.PriceSumBounds | internal/strategy/moving_average_cycle_strategy.go:51-58 | a window's sum lies between its length times the lowest and the highest price |
| CycleStrategy.MovingAverageWithinBounds | internal/strategy/moving_average_cycle_strategy.go:51-58 | a moving average lies between the lowest and the highest price of its window |
| CycleStrategy.MovingAverageMovesWithEndpoints | internal/strategy/moving_average_cycle_strategy.go:31-34 | the current average beats the previous one exactly when the newest price beats the price `period` candles back, and likewise for falling |
| CycleStrategy.StageOf | internal/strategy/moving_average_cycle_strategy.go:74-111 | each of stages 1 to 6 holds exactly for its ordering of short, medium and long; stage 0 exactly when no average is strictly largest |
| CycleStrategy.SignalOf | internal/strategy/moving_average_cycle_strategy.go:72-105 | BUY exactly in stage 1 with all three averages rising; SELL exactly in stage 4 with all three falling; HOLD otherwise |
| CycleStrategy.DirectionOf | internal/strategy/moving_average_cycle_strategy.go:113-121 | NONE after stored stage 0; otherwise MAINTAIN, REVERSE or NORMAL exactly when the new stage is equal, lower or higher |
| CycleStrategy.DirectionReverses | internal/strategy/moving_average_cycle_strategy.go:113-121 | going a to b is NORMAL exactly when going b to a is REVERSE |
| CycleStrategy.NextStage | internal/strategy/moving_average_cycle_strategy.go:113-127 | the stored stage is always a named stage with a named direction |
| CycleStrategy.GenerateDescriptionTellsSignal | internal/strategy/moving_average_cycle_strategy.go:150-171 | the first character of a description is the rising chart exactly for BUY, the falling chart exactly for SELL and the pause sign exactly for HOLD |
| CycleStrategy.GenerateDescriptionDistinguishesSignals | internal/strategy/moving_average_cycle_strategy.go:150-171 | descriptions of different signal types never coincide, whatever the stage text and averages |
| CycleStrategy.AnalyzeStep | internal/strategy/moving_average_cycle_strategy.go:21-45 | the signal names the market and strategy, carries the newest price and a named stage, and its direction compares that stage with the stored one |
| CycleStrategy.AnalyzeSignalOnPrices | internal/strategy/moving_average_cycle_strategy.go:21-45 | BUY exactly in stage 1 when the newest price exceeds the price each period back; SELL is the mirror image in stage 4 |
| CycleStrategy.NoDirectionAfterUndeterminedStage | internal/strategy/moving_average_cycle_strategy.go:113-121 | a fresh strategy, or one after an undetermined stage, reports no direction |
| CycleStrategy.SameStageTwiceMaintains | internal/strategy/moving_average_cycle_strategy.go:113-127 | two calls in the same determined stage report MAINTAIN on the second |
| CycleStrategy.WrapAroundIsReverse | internal/strategy/moving_average_cycle_strategy.go:113-121 | from stage 6 back to stage 1 is REVERSE, not NORMAL: the cycle is compared as flat numbers |
| CycleStrategy.MovingAverageCycleStrategy.constructor | internal/strategy/strategy_factory.go:12-13 | a new strategy holds its name and periods, and the zero stage |
| CycleStrategy.MovingAverageCycleStrategy.GetName | internal/strategy/moving_average_cycle_strategy.go:17-19 | the name the strategy was created with |
| CycleStrategy.MovingAverageCycleStrategy.GetRequiredCandleCount | internal/strategy/moving_average_cycle_strategy.go:47-49 | with ordered positive periods the count holds every window at offsets 0 and 1, and no smaller count does |
| CycleStrategy.MovingAverageCycleStrategy.CalculateMA | internal/strategy/moving_average_cycle_strategy.go:51-58 | the loop computes the moving average of the window |
| CycleStrategy.MovingAverageCycleStrategy.CalculateSignal | internal/strategy/moving_average_cycle_strategy.go:60-147 | the signal is the classification of the averages against the old stored stage, and the new stored stage is the signal's stage |
| CycleStrategy.MovingAverageCycleStrategy.Analyze | internal/strategy/moving_average_cycle_strategy.go:21-45 | the signal is `AnalyzeStep` from the old stored stage, and the stage is stored |
| StrategyFactory.CreateStrategy | internal/strategy/strategy_factory.go:8-17 | the two known names give that strategy, with its periods and the zero stage; any other name gives none |
| StrategyFactory.GetName | internal/strategy/trading_strategy.go:6 | either strategy reports the name it was built with |
| StrategyFactory.FirstAnalysisHasNoDirection | internal/strategy/strategy_factory.go:12-13 | a strategy's first analysis reports direction NONE |
| OrderService.TruncToInt | internal/service/order_service.go:31 | truncation toward zero: the integer is at most one away from the real, on the side of zero |
| OrderService.BuyQuantity | internal/service/order_service.go:31 | the quantity is a whole number of ten-thousandths and, for a non-negative ratio, between 0 and amount / price |
| OrderService.BuyQuantityBounds | internal/service/order_service.go:31 | the quantity is a whole number of ten-thousandths, at most amount / price and less than one ten-thousandth below it |
| OrderService.LedgerArithmeticExample | internal/service/order_service.go:28-57 | 100000 KRW at 50000000 buys 0.002; selling at 55000000 makes 10000 KRW |
| OrderService.AfterOrder | internal/service/order_service.go:28-57 | BUY opens (or replaces) the market's position at the price; SELL removes it; HOLD changes nothing; other markets are untouched |
| OrderService.AfterOrderNoOp | internal/service/order_service.go:28-57 | a SELL without a position and a HOLD leave the ledger as it was |
| OrderService.SellTwiceIsSellOnce | internal/service/order_service.go:42-56 | SELL is idempotent on the ledger |
| OrderService.AfterOrderKeepsLedgerWellFormed | internal/service/order_service.go:28-57 | every order keeps each position keyed by its market, open as BUY |
| OrderService.OrderService.constructor | internal/service/trading_bot_service.go:30 | a new service has an empty ledger |
| OrderService.OrderService.GetPosition | internal/service/order_service.go:13-18 | a position is returned exactly when the market has one |
| OrderService.OrderService.SetPosition | internal/service/order_service.go:20-22 | the market's entry becomes the position |
| OrderService.OrderService.RemovePosition | internal/service/order_service.go:24-26 | the market's entry is removed |
| OrderService.OrderService.PlaceOrder | internal/service/order_service.go:28-57 | the ledger becomes `AfterOrder` of the old ledger |
| MarketHandler.Targets | internal/service/market_handler.go:26-29 | every configured asset becomes "KRW-" followed by the asset, in order |
| MarketHandler.MatchesOfCount | internal/service/market_handler.go:44-57 | one target keeps each listing that equals it, once per occurrence |
| MarketHandler.FilterTargetsAppend | internal/service/market_handler.go:44-57 | filtering a concatenation concatenates the filtered parts |
| MarketHandler.FilterTargetsCount | internal/service/market_handler.go:44-57 | a market is kept as often as it is targeted times as often as it is listed |
| MarketHandler.FilterTargetsMembership | internal/service/market_handler.go:44-57 | a market is kept exactly when it is targeted and listed |
| MarketHandler.ValidMarkets | internal/service/market_handler.go:14-63 | no configured assets gives none; every kept market starts with "KRW-"; a market is kept exactly when it is a configured target and either the listing fetch failed, or the listing is empty (then every target is kept), or the listing names it |
| MarketHandler.ValidateAndFilterMarkets | internal/service/market_handler.go:14-63 | the nested loops compute `ValidMarkets` |
| MarketHandler.GetCandles | internal/service/market_handler.go:65-80 | an invalid candle path or a failed fetch gives no candles; otherwise the fetched candles |
| AlertHandler.SendTelegramMessage | internal/utils/alert_handler.go:58-73 | a message goes out exactly when sending is "OK" and token and chat are set, with that token, chat and text |
| AlertHandler.DirectionIcon | internal/utils/alert_handler.go:103-123 | an icon exists exactly for NORMAL, REVERSE and MAINTAIN |
| AlertHandler.DirectionText | internal/utils/alert_handler.go:103-123 | a direction line exists exactly when an icon does |
| AlertHandler.SignalEmojiDistinct | internal/utils/alert_handler.go:80-93 | each signal type has its own one-character emoji, and unknown types get the black circle |
| AlertHandler.FormatSignalMessage | internal/utils/alert_handler.go:76-135 | the message starts with the header and ends with the footer |
| AlertHandler.FormatSignalMessageEmoji | internal/utils/alert_handler.go:76-135 | the message's emoji tells the signal type apart |
| AlertHandler.FormatSignalMessageBlocks | internal/utils/alert_handler.go:76-135 | the message starts with the header; it has a stage block exactly when the signal has a stage and a description block exactly when it has a description; it ends with the footer |
| AlertHandler.SendTelegramAlert | internal/utils/alert_handler.go:16-33 | one signal's message goes out exactly when sending is enabled |
| AlertHandler.Messages | internal/utils/alert_handler.go:50-55 | one formatted message per signal, in order |
| AlertHandler.JoinedAppend | internal/utils/alert_handler.go:50-55 | joining is a homomorphism on concatenation |
| AlertHandler.JoinedMessagesAppend | internal/utils/alert_handler.go:35-56 | the report for two runs of signals is the two reports concatenated |
| AlertHandler.JoinedMessagesSingle | internal/utils/alert_handler.go:35-56 | the report for one signal is its message followed by the separator |
| AlertHandler.SendTelegramMultiAlert | internal/utils/alert_handler.go:35-56 | the loop builds the joined report, which goes out exactly when sending is enabled |
| TradingBotService.CandlesOf | internal/service/trading_bot_service.go:77-78 | one `GetCandles` result per market, in order |
| TradingBotService.CycleRun | internal/service/trading_bot_service.go:77-81 | one signal per market, naming it, carrying its newest price and a named stage; every BUY has a non-zero price |
| TradingBotService.CycleRunAt | internal/service/trading_bot_service.go:77-81 | the i-th signal is the analysis of the i-th market from the stage the signals before it left stored |
| TradingBotService.CycleRunSteps | internal/service/trading_bot_service.go:77-81 | the cycle's run satisfies the step-by-step description of the loop |
| TradingBotService.StepwiseUnique | internal/service/trading_bot_service.go:77-81 | two runs that both follow the loop step by step agree at every index |
| TradingBotService.StepwiseRunIsCycleRun | internal/service/trading_bot_service.go:77-81 | the step-by-step description has exactly one run, `CycleRun` |
| TradingBotService.CycleRunDirections | internal/service/trading_bot_service.go:77-81 | a market's direction compares its stage with the previous market's stage, not its own last one |
| TradingBotService.StoreAllUntouched | internal/service/trading_bot_service.go:90 | markets no signal names keep their latest signal, or its absence |
| TradingBotService.StoreAllLastWins | internal/service/trading_bot_service.go:90 | a market's latest signal is the last one of the run that names it |
| TradingBotService.ApplyOrdersKeepsLedgerWellFormed | internal/service/trading_bot_service.go:95-104 | a cycle's orders keep the ledger well formed |
| TradingBotService.ApplyOrdersUntouched | internal/service/trading_bot_service.go:95-104 | markets no signal names keep their position, or its absence |
| TradingBotService.RunPrefixStep | internal/service/trading_bot_service.go:77-81 | one more market stores its signal, applies its order and leaves its stage stored |
| TradingBotService.ShouldSendHoldAlert | internal/service/trading_bot_service.go:108-117 | a hold alert is due exactly when the signal has a stage whose direction the alert shows with an icon and which is not MAINTAIN |
| TradingBotService.HoldAlertOnStageChange | internal/service/trading_bot_service.go:107-117 | a hold alert is due exactly when a stage was stored before and the new stage differs from it |
| TradingBotService.DashIndex | internal/service/trading_bot_service.go:155 | the index is of the first '-' |
| TradingBotService.AssetOf | internal/service/trading_bot_service.go:155 | the asset contains no '-' |
| TradingBotService.AssetOfFields | internal/service/trading_bot_service.go:155 | the asset is the second '-'-separated field |
| TradingBotService.AssetOfQuotedSymbol | internal/service/trading_bot_service.go:155 | the asset of "KRW-" followed by a symbol is that symbol |
| TradingBotService.FirstPositionIsFirst | internal/service/trading_bot_service.go:156-162 | the position found is the first whose market equals the asset, or the zero position |
| TradingBotService.FirstPriceIsFirst | internal/service/trading_bot_service.go:164-171 | the price found is the first quoted for the asset, or "" |
| TradingBotService.CreateActions | internal/service/trading_bot_service.go:152-187 | one action per signal, in order: its market, the signal, the first matching position and the first matching price |
| TradingBotService.ActionSignals | internal/service/trading_bot_service.go:86 | the signals of the actions, in order |
| TradingBotService.TradingBot.Initialize | internal/service/trading_bot_service.go:26-31 | the markets are `ValidMarkets`; no signals, no strategy, an empty ledger |
| TradingBotService.TradingBot.RunTradingBot | internal/service/trading_bot_service.go:33-55 | the bot starts exactly when there are markets; it then holds the factory's strategy |
| TradingBotService.TradingBot.GetLatestSignal | internal/service/trading_bot_service.go:57-62 | the stored signal of the market, or the zero signal |
| TradingBotService.TradingBot.GetAllLatestSignals | internal/service/trading_bot_service.go:64-70 | every stored signal exactly once, in some order of the markets |
| TradingBotService.TradingBot.HandleSignal | internal/service/trading_bot_service.go:89-105 | the signal is stored for its market and its order applied to the ledger |
| TradingBotService.TradingBot.AnalyzeMarket | internal/service/trading_bot_service.go:78-80 | one market's analysis is stored, its order applied and its stage kept |
| TradingBotService.TradingBot.AnalyzeMarkets | internal/service/trading_bot_service.go:77-81 | after the loop the signals are `StoreAll`, the ledger is `ApplyOrders` and the stage is `FinalStage` of the run |
| TradingBotService.TradingBot.CollectActions | internal/service/trading_bot_service.go:83-85 | one action per stored signal, each built by `ActionOf` |
| TradingBotService.TradingBot.RunTask | internal/service/trading_bot_service.go:72-87 | the cycle's effect is `CycleRun` stored and ordered; the actions cover every stored signal; the report is sent exactly when enabled |

## Left out

- HTTP clients: the exchanges' answers are `Fetch` values and sequences given to the operations. This covers the Upbit markets, Upbit candles and Binance prices. `sendMessage` and its HTTP call are left out; the outgoing message is the result instead.
- Scheduling: the ticker, the goroutines, `stopChan` and the race between the first `runTask` and the strategy assignment are not modelled. `RunTradingBot` models only the guard and the strategy creation, and `RunTask` requires a cycle strategy.
- Time: `time.Now` and its formatting are a timestamp parameter.
- Number formatting: floating-point formatting (`%.2f` and the Korean `%.0f`) is a function parameter.
- Arithmetic: prices are exact reals, so IEEE rounding is not modelled.
- Logging, `printSignal` and `createSignalInfo` are left out; they only write logs.
- Configuration loading: the config singleton, `.env` loading and `ReadTradingConfig` are left out. The environment is a map.
- The moving-average cross strategy: it is created by the factory, but its `Analyze` is a stub returning the zero signal, a BUY at price 0. The model does not analyse with it.
- validateAndFilterMarkets' `find` flag only feeds a log line and is left out.
- The candle count handed to `FetchCandles` is left out: the fetched candles are a parameter.
- `GetPositions` and `GetBinancePrices` are called by `runTask` and `createActions` but do not exist in the repository. The positions and prices are sequence parameters instead.
- `SendTelegramMultiAlert` is declared over signals but is passed actions. The model gives it the actions' signals.
- The Telegram "send" switch is part of `TelegramConfig`.
- `MovingAverageCycleStrategy.Analyze`: the source logs an error on empty candles and then indexes them anyway. The model requires enough candles for every window, so that panic is not modelled.
- TradingBotService.TradingBot.RunTask: requires every market's candles to be analysable, including a non-zero newest price, because of the BUY at price 0 described below.
- OrderService.AfterOrder: requires a non-zero price for a BUY. In Go, `orderAmount/0` is +Inf (NaN for a zero amount), `int()` of that is implementation-defined, and a position with a meaningless quantity is stored. Reals have no infinity or NaN, so that case is not modelled.
- OrderService.OrderService.PlaceOrder: the same requirement and the same unmodelled +Inf/NaN quantity as `AfterOrder`.
- TradingBotService.TradingBot.HandleSignal: the same requirement and the same unmodelled +Inf/NaN quantity as `AfterOrder`.
- TradingBotService.ApplyOrders and TradingBotService.CycleRun: every BUY of a run carries a non-zero price, for the same reason.
- Market codes vs assets: `createActions` matches positions by asset ("BTC"), while the ledger keys positions by market ("KRW-BTC"). The model keeps this as written.
- The stored stage belongs to the strategy instance, not to a market, so directions compare consecutive markets (`CycleRunDirections`). The model keeps this as written.
- A SELL's computed profit is discarded, and a BUY on an open position replaces it. Both are kept as written (`AfterOrder`).
- The zero `Stage` has direction "", not "NONE" (`ZeroStageHasNoNamedDirection`).
- The order amount, read from the trading configuration inside `PlaceOrder`, is a parameter.
