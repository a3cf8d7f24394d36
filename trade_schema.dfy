/**
 * The shape of one trade analysis (`TradeData`), shared by the Gemini client,
 * the chat reducer and the forecaster. Numbers are JavaScript numbers, modelled
 * as `real`; optional fields are `Option`s. The call site casts the parsed
 * JSON to this type without checking it, so a value of this type stands for
 * whatever the parser produced.
 */
module TradeSchema {
  import opened Wrappers

  datatype Stats = Stats(totalVolume: string, peakYear: string, balance: string)

  /** One year of the history: export and import values in USD billions. */
  datatype ChartDataPoint = ChartDataPoint(year: string, exports: real, imports: real)

  datatype Sector = Sector(name: string, value: real, percentage: real)

  datatype YearChange = YearChange(year: string, change: real)

  datatype TradeData = TradeData(
    summary: string,
    stats: Stats,
    chartData: seq<ChartDataPoint>,
    topSectors: Option<seq<Sector>>,
    growthRate: Option<string>,
    yearOverYearChange: Option<seq<YearChange>>)
}
