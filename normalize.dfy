/** The normalisation engine: turns the upstream payload into canonical
    per-period statement records, deriving EBITDA, total debt and free cash
    flow where the source omits them, and appending data-quality warnings to
    the shared list. */
module Normalize {
  import opened JsValues
  import opened RawPayload
  import opened Validation

  // ---------------------------------------------------------------------
  // Periods and field lookup

  /** The date a period carries: a text, or the `endDate` object itself when
      that object has no usable `fmt` (it is passed through as it is). */
  datatype PeriodDate = DateText(text: string) | EndDateObjectAsDate

  /** `item.endDate?.fmt || item.endDate || item.date || 'N/A'`: an empty text
      is falsy and falls through, so a date text is never empty. */
  function PeriodDateOf(item: StatementItem): (d: PeriodDate)
    ensures d != DateText("")
  {
    match item.endDate
    case EndDateObject(fmt) => if fmt != "" then DateText(fmt) else EndDateObjectAsDate
    case EndDateText(t) =>
      if t != "" then DateText(t) else if item.date != "" then DateText(item.date) else DateText("N/A")
    case NoEndDate => if item.date != "" then DateText(item.date) else DateText("N/A")
  }

  datatype PeriodItem = PeriodItem(date: PeriodDate, raw: StatementItem)

  /** `pickPeriodItems(items)` */
  function PickPeriodItems(items: seq<StatementItem>): (r: seq<PeriodItem>)
    ensures |r| == |items|
    ensures forall i :: 0 <= i < |r| ==> r[i].raw == items[i] && r[i].date == PeriodDateOf(items[i])
  {
    seq(|items|, i requires 0 <= i < |items| => PeriodItem(PeriodDateOf(items[i]), items[i]))
  }

  /** The date fallback chain, step by step: a non-empty `fmt` of the
      `endDate` object, else that object itself; a non-empty `endDate` text;
      else a non-empty `date`; else "N/A". */
  lemma PeriodDateFallback(item: StatementItem)
    ensures item.endDate.EndDateObject? && item.endDate.fmt != ""
            ==> PeriodDateOf(item) == DateText(item.endDate.fmt)
    ensures item.endDate.EndDateObject? && item.endDate.fmt == "" ==> PeriodDateOf(item) == EndDateObjectAsDate
    ensures item.endDate.EndDateText? && item.endDate.text != ""
            ==> PeriodDateOf(item) == DateText(item.endDate.text)
    ensures (item.endDate == NoEndDate || item.endDate == EndDateText("")) && item.date != ""
            ==> PeriodDateOf(item) == DateText(item.date)
    ensures (item.endDate == NoEndDate || item.endDate == EndDateText("")) && item.date == ""
            ==> PeriodDateOf(item) == DateText("N/A")
  {
  }

  /** `getValue(item, key)`: the field's `raw` when it is a number or null, a
      bare number as it is, null for text, null or an object without `raw`. */
  function GetValue(item: StatementItem, key: string): Option<real>
  {
    if key !in item.fields then None
    else match item.fields[key]
      case Wrapped(v) => v
      case Bare(n) => Some(n)
      case Other => None
  }

  /** A value is only ever read from the field under its key: the `raw` of a
      wrapped number, or a bare number itself. */
  lemma GetValueReadsTheField(item: StatementItem, key: string)
    ensures GetValue(item, key).Some? ==>
              (key in item.fields
               && (item.fields[key] == Wrapped(GetValue(item, key)) || item.fields[key] == Bare(GetValue(item, key).value)))
    ensures key in item.fields && item.fields[key].Wrapped? ==> GetValue(item, key) == item.fields[key].raw
    ensures key in item.fields && item.fields[key].Bare? ==> GetValue(item, key) == Some(item.fields[key].n)
    ensures key !in item.fields || item.fields[key].Other? ==> GetValue(item, key).None?
  {
  }

  /** A canonical period: the date and the mapped record. */
  datatype Dated<T> = Dated(date: PeriodDate, fields: T)

  // ---------------------------------------------------------------------
  // Income statement

  datatype IncomeRecord = IncomeRecord(
    revenue: Option<real>, grossProfit: Option<real>, ebit: Option<real>, ebitda: Option<real>,
    interestExpense: Option<real>, pretaxIncome: Option<real>, incomeTaxExpense: Option<real>,
    netIncome: Option<real>)

  const EbitdaNote := "Derived EBITDA from EBIT + D&A"
  const IncomeSection := "Income statement"
  const IncomeRequired := ["revenue", "grossProfit", "ebit", "netIncome"]

  /** EBIT + depreciation when both are known. */
  function SumIfBoth(a: Option<real>, b: Option<real>): Option<real>
  {
    if a.Some? && b.Some? then Some(a.value + b.value) else None
  }

  function IncomeOf(item: StatementItem): IncomeRecord
  {
    var ebit := GetValue(item, "ebit");
    IncomeRecord(
      GetValue(item, "totalRevenue"), GetValue(item, "grossProfit"), ebit,
      Coalesce(GetValue(item, "ebitda"), SumIfBoth(ebit, GetValue(item, "depreciation"))),
      GetValue(item, "interestExpense"), GetValue(item, "incomeBeforeTax"),
      GetValue(item, "incomeTaxExpense"), GetValue(item, "netIncome"))
  }

  function IncomeChecked(r: IncomeRecord): Fields
  {
    map["revenue" := r.revenue, "grossProfit" := r.grossProfit, "ebit" := r.ebit, "netIncome" := r.netIncome]
  }

  /** What `mapIncome` appends for one item. */
  function IncomeWarnings(item: StatementItem): seq<string>
  {
    var r := IncomeOf(item);
    (if GetValue(item, "ebitda").None? && r.ebitda.Some? then [EbitdaNote] else [])
      + MissingWarnings(IncomeChecked(r), IncomeRequired, IncomeSection)
  }

  /** `mapIncome(item, warnings)` */
  method MapIncome(item: StatementItem, log: WarningLog) returns (r: IncomeRecord)
    modifies log
    ensures r == IncomeOf(item)
    ensures log.entries == old(log.entries) + IncomeWarnings(item)
  {
    var revenue := GetValue(item, "totalRevenue");
    var grossProfit := GetValue(item, "grossProfit");
    var ebit := GetValue(item, "ebit");
    var ebitdaRaw := GetValue(item, "ebitda");
    var depreciation := GetValue(item, "depreciation");
    var ebitda := Coalesce(ebitdaRaw, SumIfBoth(ebit, depreciation));
    log.WarnIfDerived(ebitdaRaw.None? && ebitda.Some?, EbitdaNote);
    var interestExpense := GetValue(item, "interestExpense");
    var pretaxIncome := GetValue(item, "incomeBeforeTax");
    var incomeTaxExpense := GetValue(item, "incomeTaxExpense");
    var netIncome := GetValue(item, "netIncome");
    r := IncomeRecord(revenue, grossProfit, ebit, ebitda, interestExpense, pretaxIncome,
                      incomeTaxExpense, netIncome);
    log.WarnIfMissing(IncomeChecked(r), IncomeRequired, IncomeSection);
  }

  // ---------------------------------------------------------------------
  // Balance sheet

  datatype BalanceRecord = BalanceRecord(
    cash: Option<real>, totalCurrentAssets: Option<real>, totalAssets: Option<real>,
    totalCurrentLiabilities: Option<real>, totalLiabilities: Option<real>,
    shortTermDebt: Option<real>, longTermDebt: Option<real>, totalDebt: Option<real>,
    totalEquity: Option<real>, sharesOutstanding: Option<real>)

  const DebtNote := "Derived total debt" + " from short + long term debt"
  const BalanceSection := "Balance sheet"
  const BalanceRequired := ["cash", "totalAssets", "totalLiabilities", "totalEquity"]

  function BalanceOf(item: StatementItem): BalanceRecord
  {
    var shortTermDebt := Coalesce(GetValue(item, "shortLongTermDebt"), GetValue(item, "shortTermDebt"));
    var longTermDebt := GetValue(item, "longTermDebt");
    BalanceRecord(
      Coalesce(GetValue(item, "cash"), GetValue(item, "cashAndCashEquivalents")),
      GetValue(item, "totalCurrentAssets"), GetValue(item, "totalAssets"),
      GetValue(item, "totalCurrentLiabilities"), GetValue(item, "totalLiabilities"),
      shortTermDebt, longTermDebt,
      Coalesce(GetValue(item, "totalDebt"), Some(OrElse(shortTermDebt, 0.0) + OrElse(longTermDebt, 0.0))),
      GetValue(item, "totalStockholderEquity"),
      Coalesce(GetValue(item, "shareIssued"), GetValue(item, "sharesOutstanding")))
  }

  function BalanceChecked(r: BalanceRecord): Fields
  {
    map["cash" := r.cash, "totalAssets" := r.totalAssets, "totalLiabilities" := r.totalLiabilities,
        "totalEquity" := r.totalEquity]
  }

  /** What `mapBalance` appends for one item. */
  function BalanceWarnings(item: StatementItem): seq<string>
  {
    var r := BalanceOf(item);
    (if GetValue(item, "totalDebt").None? && r.totalDebt.Some? then [DebtNote] else [])
      + MissingWarnings(BalanceChecked(r), BalanceRequired, BalanceSection)
  }

  /** `mapBalance(item, warnings)` */
  method MapBalance(item: StatementItem, log: WarningLog) returns (r: BalanceRecord)
    modifies log
    ensures r == BalanceOf(item)
    ensures log.entries == old(log.entries) + BalanceWarnings(item)
  {
    var cash := Coalesce(GetValue(item, "cash"), GetValue(item, "cashAndCashEquivalents"));
    var totalCurrentAssets := GetValue(item, "totalCurrentAssets");
    var totalAssets := GetValue(item, "totalAssets");
    var totalCurrentLiabilities := GetValue(item, "totalCurrentLiabilities");
    var totalLiabilities := GetValue(item, "totalLiabilities");
    var shortTermDebt := Coalesce(GetValue(item, "shortLongTermDebt"), GetValue(item, "shortTermDebt"));
    var longTermDebt := GetValue(item, "longTermDebt");
    var totalDebt := Coalesce(GetValue(item, "totalDebt"),
                              Some(OrElse(shortTermDebt, 0.0) + OrElse(longTermDebt, 0.0)));
    log.WarnIfDerived(GetValue(item, "totalDebt").None? && totalDebt.Some?, DebtNote);
    var totalEquity := GetValue(item, "totalStockholderEquity");
    var sharesOutstanding := Coalesce(GetValue(item, "shareIssued"), GetValue(item, "sharesOutstanding"));
    r := BalanceRecord(cash, totalCurrentAssets, totalAssets, totalCurrentLiabilities,
                       totalLiabilities, shortTermDebt, longTermDebt, totalDebt, totalEquity,
                       sharesOutstanding);
    log.WarnIfMissing(BalanceChecked(r), BalanceRequired, BalanceSection);
  }

  // ---------------------------------------------------------------------
  // Cash-flow statement

  datatype CashflowRecord = CashflowRecord(
    operatingCashFlow: Option<real>, capex: Option<real>, freeCashFlow: Option<real>,
    depreciationAmortization: Option<real>, dividendsPaid: Option<real>)

  const FcfNote := "Derived FCF from operating cash flow + capex"
  const CashSection := "Cash flow"
  const CashRequired := ["operatingCashFlow", "capex", "freeCashFlow"]

  function CashflowOf(item: StatementItem): CashflowRecord
  {
    var operatingCashFlow := Coalesce(GetValue(item, "totalCashFromOperatingActivities"),
                                      GetValue(item, "operatingCashFlow"));
    var capex := Coalesce(GetValue(item, "capitalExpenditures"), GetValue(item, "capitalExpenditure"));
    CashflowRecord(
      operatingCashFlow, capex,
      Coalesce(GetValue(item, "freeCashFlow"), SumIfBoth(operatingCashFlow, capex)),
      Coalesce(GetValue(item, "depreciation"), GetValue(item, "depreciationAndAmortization")),
      GetValue(item, "dividendsPaid"))
  }

  function CashflowChecked(r: CashflowRecord): Fields
  {
    map["operatingCashFlow" := r.operatingCashFlow, "capex" := r.capex, "freeCashFlow" := r.freeCashFlow]
  }

  /** What `mapCashflow` appends for one item. */
  function CashflowWarnings(item: StatementItem): seq<string>
  {
    var r := CashflowOf(item);
    (if GetValue(item, "freeCashFlow").None? && r.freeCashFlow.Some? then [FcfNote] else [])
      + MissingWarnings(CashflowChecked(r), CashRequired, CashSection)
  }

  /** `mapCashflow(item, warnings)` */
  method MapCashflow(item: StatementItem, log: WarningLog) returns (r: CashflowRecord)
    modifies log
    ensures r == CashflowOf(item)
    ensures log.entries == old(log.entries) + CashflowWarnings(item)
  {
    var operatingCashFlow := Coalesce(GetValue(item, "totalCashFromOperatingActivities"),
                                      GetValue(item, "operatingCashFlow"));
    var capex := Coalesce(GetValue(item, "capitalExpenditures"), GetValue(item, "capitalExpenditure"));
    var freeCashFlow := Coalesce(GetValue(item, "freeCashFlow"), SumIfBoth(operatingCashFlow, capex));
    log.WarnIfDerived(GetValue(item, "freeCashFlow").None? && freeCashFlow.Some?, FcfNote);
    var depreciationAmortization := Coalesce(GetValue(item, "depreciation"),
                                             GetValue(item, "depreciationAndAmortization"));
    var dividendsPaid := GetValue(item, "dividendsPaid");
    r := CashflowRecord(operatingCashFlow, capex, freeCashFlow, depreciationAmortization, dividendsPaid);
    log.WarnIfMissing(CashflowChecked(r), CashRequired, CashSection);
  }

  // ---------------------------------------------------------------------
  // Lists of periods: `normalizePeriod(items, mapper)`

  function IncomePeriods(items: seq<PeriodItem>): (r: seq<Dated<IncomeRecord>>)
    ensures |r| == |items|
    ensures forall i :: 0 <= i < |r| ==> r[i] == Dated(items[i].date, IncomeOf(items[i].raw))
  {
    seq(|items|, i requires 0 <= i < |items| => Dated(items[i].date, IncomeOf(items[i].raw)))
  }

  function IncomeListWarnings(items: seq<PeriodItem>): seq<string>
  {
    if items == [] then []
    else IncomeListWarnings(items[..|items| - 1]) + IncomeWarnings(items[|items| - 1].raw)
  }

  method NormalizeIncome(items: seq<PeriodItem>, log: WarningLog) returns (rows: seq<Dated<IncomeRecord>>)
    modifies log
    ensures rows == IncomePeriods(items)
    ensures log.entries == old(log.entries) + IncomeListWarnings(items)
  {
    rows := [];
    var i := 0;
    while i < |items|
      invariant 0 <= i <= |items|
      invariant |rows| == i
      invariant forall k :: 0 <= k < i ==> rows[k] == Dated(items[k].date, IncomeOf(items[k].raw))
      invariant log.entries == old(log.entries) + IncomeListWarnings(items[..i])
    {
      assert items[..i + 1][..i] == items[..i];
      var record := MapIncome(items[i].raw, log);
      AppendAssoc(old(log.entries), IncomeListWarnings(items[..i]), IncomeWarnings(items[i].raw));
      rows := rows + [Dated(items[i].date, record)];
      i := i + 1;
    }
    assert items[..i] == items;
  }

  function BalancePeriods(items: seq<PeriodItem>): (r: seq<Dated<BalanceRecord>>)
    ensures |r| == |items|
    ensures forall i :: 0 <= i < |r| ==> r[i] == Dated(items[i].date, BalanceOf(items[i].raw))
  {
    seq(|items|, i requires 0 <= i < |items| => Dated(items[i].date, BalanceOf(items[i].raw)))
  }

  function BalanceListWarnings(items: seq<PeriodItem>): seq<string>
  {
    if items == [] then []
    else BalanceListWarnings(items[..|items| - 1]) + BalanceWarnings(items[|items| - 1].raw)
  }

  method NormalizeBalance(items: seq<PeriodItem>, log: WarningLog) returns (rows: seq<Dated<BalanceRecord>>)
    modifies log
    ensures rows == BalancePeriods(items)
    ensures log.entries == old(log.entries) + BalanceListWarnings(items)
  {
    rows := [];
    var i := 0;
    while i < |items|
      invariant 0 <= i <= |items|
      invariant |rows| == i
      invariant forall k :: 0 <= k < i ==> rows[k] == Dated(items[k].date, BalanceOf(items[k].raw))
      invariant log.entries == old(log.entries) + BalanceListWarnings(items[..i])
    {
      assert items[..i + 1][..i] == items[..i];
      var record := MapBalance(items[i].raw, log);
      AppendAssoc(old(log.entries), BalanceListWarnings(items[..i]), BalanceWarnings(items[i].raw));
      rows := rows + [Dated(items[i].date, record)];
      i := i + 1;
    }
    assert items[..i] == items;
  }

  function CashflowPeriods(items: seq<PeriodItem>): (r: seq<Dated<CashflowRecord>>)
    ensures |r| == |items|
    ensures forall i :: 0 <= i < |r| ==> r[i] == Dated(items[i].date, CashflowOf(items[i].raw))
  {
    seq(|items|, i requires 0 <= i < |items| => Dated(items[i].date, CashflowOf(items[i].raw)))
  }

  function CashflowListWarnings(items: seq<PeriodItem>): seq<string>
  {
    if items == [] then []
    else CashflowListWarnings(items[..|items| - 1]) + CashflowWarnings(items[|items| - 1].raw)
  }

  method NormalizeCashflow(items: seq<PeriodItem>, log: WarningLog) returns (rows: seq<Dated<CashflowRecord>>)
    modifies log
    ensures rows == CashflowPeriods(items)
    ensures log.entries == old(log.entries) + CashflowListWarnings(items)
  {
    rows := [];
    var i := 0;
    while i < |items|
      invariant 0 <= i <= |items|
      invariant |rows| == i
      invariant forall k :: 0 <= k < i ==> rows[k] == Dated(items[k].date, CashflowOf(items[k].raw))
      invariant log.entries == old(log.entries) + CashflowListWarnings(items[..i])
    {
      assert items[..i + 1][..i] == items[..i];
      var record := MapCashflow(items[i].raw, log);
      AppendAssoc(old(log.entries), CashflowListWarnings(items[..i]), CashflowWarnings(items[i].raw));
      rows := rows + [Dated(items[i].date, record)];
      i := i + 1;
    }
    assert items[..i] == items;
  }

  // ---------------------------------------------------------------------
  // Prices: `mapPrices(chart)`

  /** One retained price point; the date text is produced by the caller's
      `dateOf` from the epoch-second timestamp. */
  datatype PricePoint = PricePoint(date: string, close: real)

  /** `closes[index] ?? null`: an index past the end is undefined. */
  function CloseAt(closes: seq<Option<real>>, i: nat): Option<real>
  {
    if i < |closes| then closes[i] else None
  }

  /** The points kept among the first `n` timestamps, in order. */
  function KeptPoints(ts: seq<int>, closes: seq<Option<real>>, dateOf: int -> string, n: nat): seq<PricePoint>
    requires n <= |ts|
  {
    if n == 0 then []
    else
      KeptPoints(ts, closes, dateOf, n - 1)
        + (if CloseAt(closes, n - 1).Some? then [PricePoint(dateOf(ts[n - 1]), CloseAt(closes, n - 1).value)] else [])
  }

  /** The indices among the first `n` whose close is known, in increasing order. */
  function KeptIndices(closes: seq<Option<real>>, n: nat): seq<nat>
  {
    if n == 0 then []
    else KeptIndices(closes, n - 1) + (if CloseAt(closes, n - 1).Some? then [n - 1] else [])
  }

  function Timestamps(chart: Chart): seq<int>
  {
    if chart.timestamp.Some? then chart.timestamp.value else []
  }

  function Closes(chart: Chart): seq<Option<real>>
  {
    if chart.close.Some? then chart.close.value else []
  }

  /** `mapPrices(chart)`: one point per timestamp whose close is known; the
      lemma below says which points, in which order. */
  function MapPrices(chart: Chart, dateOf: int -> string): (points: seq<PricePoint>)
    ensures |points| == |KeptIndices(Closes(chart), |Timestamps(chart)|)| <= |Timestamps(chart)|
  {
    KeptPointsAreTheKnownCloses(Timestamps(chart), Closes(chart), dateOf, |Timestamps(chart)|);
    KeptPoints(Timestamps(chart), Closes(chart), dateOf, |Timestamps(chart)|)
  }

  /** The price series is exactly the timestamps with a known close, in their
      original order: point k is the one at the k-th such index. */
  lemma {:induction false} KeptPointsAreTheKnownCloses(ts: seq<int>, closes: seq<Option<real>>, dateOf: int -> string, n: nat)
    requires n <= |ts|
    ensures var idx := KeptIndices(closes, n);
            var pts := KeptPoints(ts, closes, dateOf, n);
            && |pts| == |idx| <= n
            && (forall k :: 0 <= k < |idx| ==>
                  (idx[k] < n && CloseAt(closes, idx[k]).Some?
                   && pts[k] == PricePoint(dateOf(ts[idx[k]]), CloseAt(closes, idx[k]).value)))
            && (forall k, l :: 0 <= k < l < |idx| ==> idx[k] < idx[l])
            && (forall i :: 0 <= i < n && CloseAt(closes, i).Some? ==> i in idx)
  {
    if n > 0 {
      KeptPointsAreTheKnownCloses(ts, closes, dateOf, n - 1);
      var idx := KeptIndices(closes, n);
      var prev := KeptIndices(closes, n - 1);
      assert prev == idx[..|prev|];
      forall i | 0 <= i < n && CloseAt(closes, i).Some? ensures i in idx {
        if i < n - 1 {
          assert i in prev;
        } else {
          assert idx[|idx| - 1] == i;
        }
      }
    }
  }

  lemma MapPricesKeepsKnownCloses(chart: Chart, dateOf: int -> string)
    ensures var idx := KeptIndices(Closes(chart), |Timestamps(chart)|);
            var pts := MapPrices(chart, dateOf);
            && |pts| == |idx| <= |Timestamps(chart)|
            && (forall k :: 0 <= k < |idx| ==>
                  (idx[k] < |Timestamps(chart)| && CloseAt(Closes(chart), idx[k]).Some?
                   && pts[k] == PricePoint(dateOf(Timestamps(chart)[idx[k]]), CloseAt(Closes(chart), idx[k]).value)))
            && (forall k, l :: 0 <= k < l < |idx| ==> idx[k] < idx[l])
            && (forall i :: 0 <= i < |Timestamps(chart)| && CloseAt(Closes(chart), i).Some? ==> i in idx)
  {
    KeptPointsAreTheKnownCloses(Timestamps(chart), Closes(chart), dateOf, |Timestamps(chart)|);
  }

  // ---------------------------------------------------------------------
  // The whole payload

  datatype Meta = Meta(currency: string, longName: string)

  /** The canonical result shared by both sources. `warnings` is the shared
      list as it stands when the result is built. */
  datatype Normalized = Normalized(
    years: seq<Dated<IncomeRecord>>, quarters: seq<Dated<IncomeRecord>>,
    balanceYears: seq<Dated<BalanceRecord>>, balanceQuarters: seq<Dated<BalanceRecord>>,
    cashYears: seq<Dated<CashflowRecord>>, cashQuarters: seq<Dated<CashflowRecord>>,
    prices: seq<PricePoint>, meta: Meta, warnings: seq<string>)

  function ListOrEmpty(items: Option<seq<StatementItem>>): seq<StatementItem>
  {
    if items.Some? then items.value else []
  }

  function MetaOf(s: Summary): Meta
  {
    if s.price.None? then Meta("USD", "Unknown")
    else
      var p := s.price.value;
      Meta(if p.currency != "" then p.currency else "USD",
           if p.longName != "" then p.longName else if p.shortName != "" then p.shortName else "Unknown")
  }

  /** The warnings `normalizeYahoo` appends: income annual, income quarterly,
      balance annual, balance quarterly, cash annual, cash quarterly. */
  function YahooWarnings(s: Summary): seq<string>
  {
    IncomeListWarnings(PickPeriodItems(ListOrEmpty(s.incomeAnnual)))
      + IncomeListWarnings(PickPeriodItems(ListOrEmpty(s.incomeQuarterly)))
      + BalanceListWarnings(PickPeriodItems(ListOrEmpty(s.balanceAnnual)))
      + BalanceListWarnings(PickPeriodItems(ListOrEmpty(s.balanceQuarterly)))
      + CashflowListWarnings(PickPeriodItems(ListOrEmpty(s.cashAnnual)))
      + CashflowListWarnings(PickPeriodItems(ListOrEmpty(s.cashQuarterly)))
  }

  function NormalizedOf(p: Payload, dateOf: int -> string, warnings: seq<string>): Normalized
  {
    var s := p.summary;
    Normalized(
      IncomePeriods(PickPeriodItems(ListOrEmpty(s.incomeAnnual))),
      IncomePeriods(PickPeriodItems(ListOrEmpty(s.incomeQuarterly))),
      BalancePeriods(PickPeriodItems(ListOrEmpty(s.balanceAnnual))),
      BalancePeriods(PickPeriodItems(ListOrEmpty(s.balanceQuarterly))),
      CashflowPeriods(PickPeriodItems(ListOrEmpty(s.cashAnnual))),
      CashflowPeriods(PickPeriodItems(ListOrEmpty(s.cashQuarterly))),
      MapPrices(p.chart, dateOf), MetaOf(s), warnings)
  }

  /** `normalizeYahoo(payload, warnings)`: the warnings go to the end of the
      list passed in, which is also the result's `warnings`. */
  method NormalizeYahoo(p: Payload, dateOf: int -> string, log: WarningLog) returns (r: Normalized)
    modifies log
    ensures log.entries == old(log.entries) + YahooWarnings(p.summary)
    ensures r == NormalizedOf(p, dateOf, log.entries)
  {
    var s := p.summary;
    var incomeAnnual := PickPeriodItems(ListOrEmpty(s.incomeAnnual));
    var balanceAnnual := PickPeriodItems(ListOrEmpty(s.balanceAnnual));
    var cashAnnual := PickPeriodItems(ListOrEmpty(s.cashAnnual));
    var incomeQuarterly := PickPeriodItems(ListOrEmpty(s.incomeQuarterly));
    var balanceQuarterly := PickPeriodItems(ListOrEmpty(s.balanceQuarterly));
    var cashQuarterly := PickPeriodItems(ListOrEmpty(s.cashQuarterly));
    ghost var w0 := log.entries;
    var years := NormalizeIncome(incomeAnnual, log);
    ghost var w1 := log.entries;
    var quarters := NormalizeIncome(incomeQuarterly, log);
    ghost var w2 := log.entries;
    var balanceYears := NormalizeBalance(balanceAnnual, log);
    ghost var w3 := log.entries;
    var balanceQuarters := NormalizeBalance(balanceQuarterly, log);
    ghost var w4 := log.entries;
    var cashYears := NormalizeCashflow(cashAnnual, log);
    ghost var w5 := log.entries;
    var cashQuarters := NormalizeCashflow(cashQuarterly, log);
    ghost var a := IncomeListWarnings(incomeAnnual);
    ghost var b := IncomeListWarnings(incomeQuarterly);
    ghost var c := BalanceListWarnings(balanceAnnual);
    ghost var d := BalanceListWarnings(balanceQuarterly);
    ghost var e := CashflowListWarnings(cashAnnual);
    ghost var f := CashflowListWarnings(cashQuarterly);
    AppendAssoc(w0, a, b);
    AppendAssoc(w0, a + b, c);
    AppendAssoc(w0, a + b + c, d);
    AppendAssoc(w0, a + b + c + d, e);
    AppendAssoc(w0, a + b + c + d + e, f);
    r := Normalized(years, quarters, balanceYears, balanceQuarters, cashYears, cashQuarters,
                    MapPrices(p.chart, dateOf), MetaOf(s), log.entries);
  }

  /** Regrouping appended warnings: lets the loops above and `NormalizeYahoo`
      match the log, built one append at a time, against the specification
      functions, which append whole lists. */
  lemma AppendAssoc(x: seq<string>, y: seq<string>, z: seq<string>)
    ensures x + y + z == x + (y + z)
  {
  }

  /** The demo dataset, already in canonical form. */
  datatype DemoData = DemoData(
    meta: Meta,
    incomeAnnual: seq<Dated<IncomeRecord>>, incomeQuarterly: seq<Dated<IncomeRecord>>,
    balanceAnnual: seq<Dated<BalanceRecord>>, balanceQuarterly: seq<Dated<BalanceRecord>>,
    cashflowAnnual: seq<Dated<CashflowRecord>>, cashflowQuarterly: seq<Dated<CashflowRecord>>,
    prices: seq<PricePoint>)

  /** `normalizeDemo(demoData)`: fields pass through, with no warnings. */
  function NormalizeDemo(d: DemoData): (r: Normalized)
    ensures r.warnings == []
    ensures r.years == d.incomeAnnual && r.quarters == d.incomeQuarterly
    ensures r.balanceYears == d.balanceAnnual && r.balanceQuarters == d.balanceQuarterly
    ensures r.cashYears == d.cashflowAnnual && r.cashQuarters == d.cashflowQuarterly
    ensures r.prices == d.prices && r.meta == d.meta
  {
    Normalized(d.incomeAnnual, d.incomeQuarterly, d.balanceAnnual, d.balanceQuarterly,
               d.cashflowAnnual, d.cashflowQuarterly, d.prices, d.meta, [])
  }

  // ---------------------------------------------------------------------
  // Properties of the derivations and of the warnings

  /** A note whose first character differs from the section heading's is
      never one of the missing-field entries. */
  lemma {:induction false} NoteIsNotAMissingEntry(note: string, obj: Fields, fields: seq<string>, section: string)
    requires |note| > 0 && |section| > 0 && note[0] != section[0]
    ensures note !in MissingWarnings(obj, fields, section)
  {
    var ws := MissingWarnings(obj, fields, section);
    forall k | 0 <= k < |ws| ensures ws[k] != note {
      MissingWarningsShape(obj, fields, section, k);
      var j :| 0 <= j < |fields| && ws[k] == MissingEntry(section, fields[j]);
      assert ws[k][0] == section[0];
    }
  }

  /** EBITDA is the source value when present, otherwise EBIT + depreciation
      when both are present, otherwise unknown; it is never 0 by default. */
  lemma EbitdaResolution(item: StatementItem)
    ensures GetValue(item, "ebitda").Some? ==> IncomeOf(item).ebitda == GetValue(item, "ebitda")
    ensures GetValue(item, "ebitda").None? && GetValue(item, "ebit").Some? && GetValue(item, "depreciation").Some?
            ==> IncomeOf(item).ebitda == Some(GetValue(item, "ebit").value + GetValue(item, "depreciation").value)
    ensures IncomeOf(item).ebitda.None?
            <==> GetValue(item, "ebitda").None? && (GetValue(item, "ebit").None? || GetValue(item, "depreciation").None?)
  {
  }

  /** The derived-EBITDA note is appended exactly when the source EBITDA is
      unknown and the derived one is known. */
  lemma DerivedEbitdaNoted(item: StatementItem)
    ensures EbitdaNote in IncomeWarnings(item)
            <==> GetValue(item, "ebitda").None? && IncomeOf(item).ebitda.Some?
  {
    NoteIsNotAMissingEntry(EbitdaNote, IncomeChecked(IncomeOf(item)), IncomeRequired, IncomeSection);
  }

  /** Total debt is never unknown: without a source value it is short-term plus
      long-term debt, a missing part counting as 0, and the derived-debt note is
      appended exactly when the source value is absent. */
  lemma TotalDebtAlwaysKnown(item: StatementItem)
    ensures BalanceOf(item).totalDebt.Some?
    ensures GetValue(item, "totalDebt").None? ==>
              BalanceOf(item).totalDebt.value
              == OrElse(BalanceOf(item).shortTermDebt, 0.0) + OrElse(BalanceOf(item).longTermDebt, 0.0)
    ensures DebtNote in BalanceWarnings(item) <==> GetValue(item, "totalDebt").None?
  {
    assert DebtNote[0] == 'D' && BalanceSection[0] == 'B';
    NoteIsNotAMissingEntry(DebtNote, BalanceChecked(BalanceOf(item)), BalanceRequired, BalanceSection);
  }

  /** Free cash flow falls back to operating cash flow + capex only when both
      are known, and the derived-FCF note is appended exactly when that
      fallback supplied the value. */
  lemma FreeCashFlowFallback(item: StatementItem)
    ensures var r := CashflowOf(item);
            GetValue(item, "freeCashFlow").None? ==>
              r.freeCashFlow == (if r.operatingCashFlow.Some? && r.capex.Some?
                                 then Some(r.operatingCashFlow.value + r.capex.value) else None)
    ensures FcfNote in CashflowWarnings(item)
            <==> GetValue(item, "freeCashFlow").None? && CashflowOf(item).freeCashFlow.Some?
  {
    NoteIsNotAMissingEntry(FcfNote, CashflowChecked(CashflowOf(item)), CashRequired, CashSection);
  }

  /** Where two key names feed one field, the first one wins when it is known,
      and the second is used otherwise. */
  lemma KeyPreference(item: StatementItem)
    ensures BalanceOf(item).cash
            == (if GetValue(item, "cash").Some? then GetValue(item, "cash") else GetValue(item, "cashAndCashEquivalents"))
    ensures BalanceOf(item).shortTermDebt
            == (if GetValue(item, "shortLongTermDebt").Some? then GetValue(item, "shortLongTermDebt")
                else GetValue(item, "shortTermDebt"))
    ensures BalanceOf(item).sharesOutstanding
            == (if GetValue(item, "shareIssued").Some? then GetValue(item, "shareIssued")
                else GetValue(item, "sharesOutstanding"))
    ensures CashflowOf(item).operatingCashFlow
            == (if GetValue(item, "totalCashFromOperatingActivities").Some?
                then GetValue(item, "totalCashFromOperatingActivities") else GetValue(item, "operatingCashFlow"))
    ensures CashflowOf(item).depreciationAmortization
            == (if GetValue(item, "depreciation").Some? then GetValue(item, "depreciation")
                else GetValue(item, "depreciationAndAmortization"))
  {
  }

  /** Short-term debt 10 and long-term debt 20 with no total give a total of
      30, one derived-debt note and no warning about total debt. */
  lemma DerivedDebtExample()
    ensures var item := StatementItem(NoEndDate, "", map["shortTermDebt" := Bare(10.0), "longTermDebt" := Bare(20.0)]);
            && BalanceOf(item).totalDebt == Some(30.0)
            && BalanceWarnings(item)[0] == DebtNote
            && DebtNote !in BalanceWarnings(item)[1..]
            && MissingEntry(BalanceSection, "totalDebt") !in BalanceWarnings(item)
  {
    var item := StatementItem(NoEndDate, "", map["shortTermDebt" := Bare(10.0), "longTermDebt" := Bare(20.0)]);
    var obj := BalanceChecked(BalanceOf(item));
    var missing := MissingWarnings(obj, BalanceRequired, BalanceSection);
    assert DebtNote[0] == 'D' && BalanceSection[0] == 'B';
    NoteIsNotAMissingEntry(DebtNote, obj, BalanceRequired, BalanceSection);
    assert BalanceWarnings(item) == [DebtNote] + missing;
    assert BalanceWarnings(item)[1..] == missing;
    forall k | 0 <= k < |missing| ensures missing[k] != MissingEntry(BalanceSection, "totalDebt") {
      MissingWarningsShape(obj, BalanceRequired, BalanceSection, k);
      var j :| 0 <= j < |BalanceRequired| && missing[k] == MissingEntry(BalanceSection, BalanceRequired[j]);
      var pre := BalanceSection + ": Missing ";
      assert MissingEntry(BalanceSection, BalanceRequired[j])[|pre|..] == BalanceRequired[j];
      assert MissingEntry(BalanceSection, "totalDebt")[|pre|..] == "totalDebt";
      assert BalanceRequired[j] != "totalDebt";
    }
  }
}
