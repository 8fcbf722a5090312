/** The value types shared by the strategy, the ledger and the orchestrator:
    stage numbers and directions, signal types, signals, positions, candles,
    and the records the report is built from. */
module Model {
  import opened Wrappers

  // ---------------------------------------------------------------------------
  // Cycle stages

  /** A stage number is a named integer type; only 0..6 have names. */
  type StageNumber = int

  const STAGE_0: StageNumber := 0  // undetermined (the zero value)
  const STAGE_1: StageNumber := 1  // stable uptrend: short > medium > long
  const STAGE_2: StageNumber := 2  // end of uptrend: medium > short > long
  const STAGE_3: StageNumber := 3  // start of downtrend: medium > long >= short
  const STAGE_4: StageNumber := 4  // stable downtrend: long > medium > short
  const STAGE_5: StageNumber := 5  // end of downtrend: long > short >= medium
  const STAGE_6: StageNumber := 6  // start of uptrend: short > long >= medium

  predicate IsNamedStage(n: StageNumber) {
    STAGE_0 <= n <= STAGE_6
  }

  /** The name of a stage number; outside 0..6 the lookup table would be
      indexed out of range, so the number must be a named stage. */
  function StageNumberString(n: StageNumber): (s: string)
    requires IsNamedStage(n)
    ensures |s| == 7 && s[..6] == "STAGE_"
    ensures s[6] as int == '0' as int + n
  {
    ["STAGE_0", "STAGE_1", "STAGE_2", "STAGE_3", "STAGE_4", "STAGE_5", "STAGE_6"][n]
  }

  /** Different stage numbers have different names. */
  lemma StageNumberStringInjective(a: StageNumber, b: StageNumber)
    requires IsNamedStage(a) && IsNamedStage(b)
    requires StageNumberString(a) == StageNumberString(b)
    ensures a == b
  {
    assert StageNumberString(a)[6] == StageNumberString(b)[6];
  }

  /** A stage direction is a named string type. */
  type StageDir = string

  const STAGE_DIR_NONE: StageDir := "NONE"
  const STAGE_DIR_MAINTAIN: StageDir := "MAINTAIN"
  const STAGE_DIR_NORMAL: StageDir := "NORMAL"
  const STAGE_DIR_REVERSE: StageDir := "REVERSE"

  predicate IsNamedDirection(d: StageDir) {
    d == STAGE_DIR_NONE || d == STAGE_DIR_MAINTAIN || d == STAGE_DIR_NORMAL || d == STAGE_DIR_REVERSE
  }

  datatype Stage = Stage(stageNumber: StageNumber, stageDir: StageDir, description: string)

  /** The zero `Stage`: number STAGE_0, an empty direction, no description. */
  const ZeroStage: Stage := Stage(STAGE_0, "", "")

  /** The zero stage's direction is none of the four named directions. */
  lemma ZeroStageHasNoNamedDirection()
    ensures ZeroStage.stageNumber == STAGE_0
    ensures !IsNamedDirection(ZeroStage.stageDir)
  {
  }

  // ---------------------------------------------------------------------------
  // Signals

  /** A signal type is a named integer type; only 0..2 have names. */
  type SignalType = int

  const BUY: SignalType := 0
  const SELL: SignalType := 1
  const HOLD: SignalType := 2

  predicate IsNamedSignalType(t: SignalType) {
    BUY <= t <= HOLD
  }

  /** The name of a signal type; the lookup table has three entries. */
  function SignalTypeString(t: SignalType): (s: string)
    requires IsNamedSignalType(t)
    ensures s == "BUY" <==> t == BUY
    ensures s == "SELL" <==> t == SELL
    ensures s == "HOLD" <==> t == HOLD
  {
    ["BUY", "SELL", "HOLD"][t]
  }

  /** A trading decision for one market. `stage` is present only for the
      three-moving-average cycle strategy. */
  datatype Signal = Signal(
    signalType: SignalType,
    market: string,
    currentPrice: real,
    timestamp: string,
    description: string,
    strategyName: string,
    stage: Option<Stage>)

  /** The zero `Signal`: type BUY (the zero signal type), every text empty,
      price 0 and no stage. */
  const ZeroSignal: Signal := Signal(BUY, "", 0.0, "", "", "", None)

  /** Renders a price or an average as text (the `%.2f` and `%.0f` verbs,
      the latter with Korean digit grouping); left abstract. */
  type RealFormatter = real -> string

  // ---------------------------------------------------------------------------
  // Positions, candles and report records

  type PositionStatus = string

  const POSITION_NONE: PositionStatus := "NONE"
  const POSITION_BUY: PositionStatus := "BUY"

  datatype Position = Position(
    status: PositionStatus,
    market: string,
    quantity: real,
    entryPrice: real,
    profit: real)

  const ZeroPosition: Position := Position("", "", 0.0, 0.0, 0.0)

  /** One candle of the exchange's price series. */
  datatype Candle = Candle(
    market: string,
    openingPrice: real,
    highPrice: real,
    lowPrice: real,
    tradePrice: real,
    timestamp: int)

  /** One entry of the exchange's list of tradable markets. */
  datatype MarketInfo = MarketInfo(market: string, koreanName: string, englishName: string)

  /** A price of an asset in another quote currency, kept as text. */
  datatype Price = Price(asset: string, price: string)

  /** One line of the per-cycle report. */
  datatype Action = Action(market: string, signal: Signal, position: Position, usdtPrice: string)
}
