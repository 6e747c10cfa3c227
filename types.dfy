/** The value types of the dashboard (types.ts). */
module Types {

  /** How far back the history goes (`Period`). */
  datatype Period = OneDay | FiveDays | OneMonth | TwoMonths | ThreeMonths | SixMonths | OneYear | TwoYears
  {
    /** The string literal the source uses for this period. */
    function Label(): string
    {
      match this
      case OneDay => "1d"
      case FiveDays => "5d"
      case OneMonth => "1mo"
      case TwoMonths => "2mo"
      case ThreeMonths => "3mo"
      case SixMonths => "6mo"
      case OneYear => "1y"
      case TwoYears => "2y"
    }
  }

  /** The sampling step between two chart points (`Interval`). */
  datatype Interval = Daily | Weekly | Monthly
  {
    /** The string literal the source uses for this interval. */
    function Label(): string
    {
      match this
      case Daily => "1d"
      case Weekly => "1wk"
      case Monthly => "1mo"
    }
  }

  datatype Category = Index | Sector

  /** One tradable instrument (`TickerInfo`). */
  datatype TickerInfo = TickerInfo(symbol: string, name: string, category: Category, color: string)

  /** One chart point (`MarketDataPoint`): the date, kept as the number of days
      before today, and each requested symbol's percent change from its first price. */
  datatype MarketDataPoint = MarketDataPoint(daysBeforeNow: nat, values: map<string, real>)

  /** One row of the summary table (`SummaryStats`). */
  datatype SummaryStats = SummaryStats(symbol: string, name: string, lastPrice: real, percentChange: real, color: string)

  /** The whole state of the application component (`AppState`). */
  datatype AppState = AppState(
    selectedTickers: seq<string>,
    period: Period,
    interval: Interval,
    data: seq<MarketDataPoint>,
    summary: seq<SummaryStats>,
    loading: bool,
    aiInsight: string)
}
