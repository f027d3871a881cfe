/** The shapes of the upstream quote-summary and chart responses, as far as
    the normalisation code looks into them. */
module RawPayload {
  import opened JsValues

  /** One field of a statement item as the service sends it. */
  datatype RawField =
    | Wrapped(raw: Option<real>)  // an object whose `raw` is a number or null
    | Bare(n: real)               // a bare number
    | Other                       // text, null, or an object whose `raw` is undefined

  /** `item.endDate`: absent, a text, or an object whose `fmt` is given
      (the empty text standing for an absent or empty `fmt`). */
  datatype EndDate = NoEndDate | EndDateText(text: string) | EndDateObject(fmt: string)

  /** One statement item; `date` is the empty text when absent. Numeric fields
      are looked up by name in `fields`; an absent name is undefined. */
  datatype StatementItem = StatementItem(endDate: EndDate, date: string, fields: map<string, RawField>)

  /** `summary.price`; each text is empty when absent. */
  datatype Price = Price(currency: string, longName: string, shortName: string)

  /** The parts of `summary` that are read. Each list stands for the nested
      path named in its comment; `None` when some step of the path is missing. */
  datatype Summary = Summary(
    incomeAnnual: Option<seq<StatementItem>>,     // incomeStatementHistory.incomeStatementHistory
    balanceAnnual: Option<seq<StatementItem>>,    // balanceSheetHistory.balanceSheetStatements
    cashAnnual: Option<seq<StatementItem>>,       // cashflowStatementHistory.cashflowStatements
    incomeQuarterly: Option<seq<StatementItem>>,  // incomeStatementHistoryQuarterly.incomeStatementHistory
    balanceQuarterly: Option<seq<StatementItem>>, // balanceSheetHistoryQuarterly.balanceSheetStatements
    cashQuarterly: Option<seq<StatementItem>>,    // cashflowStatementHistoryQuarterly.cashflowStatements
    price: Option<Price>)

  /** The parts of a chart that are read: `timestamp` (epoch seconds) and
      `indicators.quote[0].close`. */
  datatype Chart = Chart(timestamp: Option<seq<int>>, close: Option<seq<Option<real>>>)

  /** `{}` in the place of a summary or a chart. */
  const EmptySummary := Summary(None, None, None, None, None, None, None)
  const EmptyChart := Chart(None, None)

  /** The adapted payload: exactly a summary and a chart. */
  datatype Payload = Payload(summary: Summary, chart: Chart)
}
