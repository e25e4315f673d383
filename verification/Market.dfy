/** Vocabulary shared by the paper loop, the backtester and the analytics. */
module Market {

  datatype Option<+T> = None | Some(value: T)

  datatype Side = Long | Short

  /** A confirmed candle: its open time in milliseconds and its four prices. */
  datatype Bar = Bar(openTime: int, open: real, high: real, low: real, close: real)

  /** A bar as the candle store accepts it: positive prices, the open and the close inside the range. */
  ghost predicate Sane(b: Bar) {
    0.0 < b.low && b.low <= b.open <= b.high && b.low <= b.close <= b.high
  }

  datatype OrderKind = MarketOrder | StopOrder | TakeProfitOrder | LiquidationOrder

  datatype Reason =
    | Liquidation | StopLoss | TrailingStop | TakeProfit
    | SignalExit | AgentDeath | OrphanResolution | GenerationRollover | EndOfData

  /** A rate in [0, 1), such as the maintenance margin rate. */
  type Fraction = r: real | 0.0 <= r < 1.0

  type Positive = r: real | 0.0 < r witness 1.0

  /** DNA leverage limits are at least one. */
  type Leverage = r: real | 1.0 <= r witness 1.0

  const MS_PER_DAY := 86_400_000

  function Day(ms: int): int { ms / MS_PER_DAY }

  function Max(a: real, b: real): real { if a >= b then a else b }

  function Min(a: real, b: real): real { if a <= b then a else b }

  function Abs(a: real): real { if a >= 0.0 then a else -a }

  /** +1 for a long, -1 for a short. */
  function Direction(side: Side): real { if side.Long? then 1.0 else -1.0 }

  function Sum(xs: seq<real>): real {
    if xs == [] then 0.0 else Sum(xs[..|xs| - 1]) + xs[|xs| - 1]
  }

  /** The extremes of an entry price and the bars after it. */
  function Highest(entry: real, bars: seq<Bar>): real {
    if bars == [] then entry else Max(Highest(entry, bars[..|bars| - 1]), bars[|bars| - 1].high)
  }

  function Lowest(entry: real, bars: seq<Bar>): real {
    if bars == [] then entry else Min(Lowest(entry, bars[..|bars| - 1]), bars[|bars| - 1].low)
  }
}
