/** The pure part of the market-data proxy client: the request URLs and the
    adapter that picks the summary and the chart out of the two responses. */
module YahooProxy {
  import opened JsValues
  import opened RawPayload

  /** A response as far as the adapter reads it: the nested form
      `x.quoteSummary.result` (or `x.chart.result`) and the flat form
      `x.result`, each an array whose entries may be null; `None` where a step
      of the path is missing. */
  datatype Envelope<T> = Envelope(nested: Option<seq<Option<T>>>, flat: Option<seq<Option<T>>>)

  /** `results?.[0]`, null and undefined alike being `None`. */
  function First<T>(results: Option<seq<Option<T>>>): Option<T>
  {
    if results.Some? && |results.value| > 0 then results.value[0] else None
  }

  /** `x?.outer?.result?.[0] || x?.result?.[0] || {}`; an object is always
      truthy, so the first present entry wins. */
  function PickResult<T>(e: Envelope<T>, empty: T): (r: T)
    ensures First(e.nested).Some? ==> r == First(e.nested).value
    ensures First(e.nested).None? && First(e.flat).Some? ==> r == First(e.flat).value
    ensures First(e.nested).None? && First(e.flat).None? ==> r == empty
  {
    if First(e.nested).Some? then First(e.nested).value
    else if First(e.flat).Some? then First(e.flat).value
    else empty
  }

  /** `parseYahooQuoteSummary(data)` */
  function ParseYahooQuoteSummary(data: Envelope<Summary>): (s: Summary)
    ensures First(data.nested).Some? ==> s == First(data.nested).value
    ensures First(data.nested).None? && First(data.flat).Some? ==> s == First(data.flat).value
    ensures First(data.nested).None? && First(data.flat).None? ==> s == EmptySummary
  {
    PickResult(data, EmptySummary)
  }

  /** `adaptYahooPayload(quotePayload, chartPayload)` */
  function AdaptYahooPayload(quote: Envelope<Summary>, chart: Envelope<Chart>): (p: Payload)
    ensures p.summary == PickResult(quote, EmptySummary)
    ensures p.chart == PickResult(chart, EmptyChart)
  {
    Payload(ParseYahooQuoteSummary(quote), PickResult(chart, EmptyChart))
  }

  /** Whichever nesting the service uses, the adapter finds the same summary
      and chart, and a response with neither yields `{}`. */
  lemma EitherNestingWorks(s: Summary, c: Chart, rest: seq<Option<Summary>>, restChart: seq<Option<Chart>>)
    ensures AdaptYahooPayload(Envelope(Some([Some(s)] + rest), None), Envelope(Some([Some(c)] + restChart), None))
            == Payload(s, c)
    ensures AdaptYahooPayload(Envelope(None, Some([Some(s)] + rest)), Envelope(Some([]), Some([Some(c)] + restChart)))
            == Payload(s, c)
    ensures AdaptYahooPayload(Envelope(None, None), Envelope(Some([None]), None)) == Payload(EmptySummary, EmptyChart)
  {
  }

  // ---------------------------------------------------------------------
  // Request URLs

  /** `proxyBase.replace(/\/$/, '')`: one trailing slash at most is removed. */
  function StripTrailingSlash(base: string): (r: string)
    ensures r == base || r + "/" == base
    ensures |base| > 0 && base[|base| - 1] == '/' ==> r + "/" == base
  {
    if |base| > 0 && base[|base| - 1] == '/' then base[..|base| - 1] else base
  }

  const QuoteModules := "?modules=incomeStatementHistory,balanceSheetHistory,"
                        + "cashflowStatementHistory,defaultKeyStatistics,price"
  const ChartQuery := "?range=5y&interval=1d"

  /** The text between a known prefix and a known suffix. */
  function Between(url: string, prefix: string, suffix: string): string
    requires |prefix| + |suffix| <= |url|
  {
    url[|prefix|..|url| - |suffix|]
  }

  /** The URL `fetchQuoteSummary` requests: the stripped base and the path,
      then the ticker, which can be read back from between them and the fixed
      module list. */
  function QuoteSummaryUrl(base: string, ticker: string): (url: string)
    ensures var pre := StripTrailingSlash(base) + "/quoteSummary/";
            |pre| + |QuoteModules| <= |url| && url[..|pre|] == pre && Between(url, pre, QuoteModules) == ticker
            && url[|url| - |QuoteModules|..] == QuoteModules
  {
    var pre := StripTrailingSlash(base) + "/quoteSummary/";
    var url := pre + ticker + QuoteModules;
    assert url[|pre|..|url| - |QuoteModules|] == ticker;
    url
  }

  /** The URL `fetchChart` requests: the stripped base and the path, then the
      ticker, which can be read back from between them and the fixed query. */
  function ChartUrl(base: string, ticker: string): (url: string)
    ensures var pre := StripTrailingSlash(base) + "/chart/";
            |pre| + |ChartQuery| <= |url| && url[..|pre|] == pre && Between(url, pre, ChartQuery) == ticker
            && url[|url| - |ChartQuery|..] == ChartQuery
  {
    var pre := StripTrailingSlash(base) + "/chart/";
    var url := pre + ticker + ChartQuery;
    assert url[|pre|..|url| - |ChartQuery|] == ticker;
    url
  }

  /** A base ending in two slashes keeps one of them. */
  lemma OnlyOneSlashStripped()
    ensures StripTrailingSlash("p//") == "p/"
    ensures ChartUrl("p/", "T") == "p/chart/T" + ChartQuery
  {
    assert "p//"[..2] == "p/";
  }
}
