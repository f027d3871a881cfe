# Financial analysis workbench — verified model of its core

The workbench loads a company's statements and price history from a Yahoo
Finance proxy, or a bundled demo dataset. It normalises them into canonical
per-period records, with data-quality warnings. It then runs the valuation
modules on them: a revenue forecast, a discounted-cash-flow valuation with a
sensitivity grid, a leveraged-buyout model, merger accretion and dilution,
cost of capital, per-period financial ratios and trading comparables. Small
helpers do null-safe division, CSV export text and a browser-storage cache.

This project models that core in Dafny and proves what each operation
promises. It has one module per source file and two shared modules:

- `JsValues`: `Option`, the JavaScript `||`, `??` and destructuring defaults,
  and the assumptions map.
- `RealArith`: `Pow` and a few lemmas on products.

| file | module | models |
|---|---|---|
| js_values.dfy | JsValues | null/undefined, `x \|\| d`, `x ?? y`, `{ k = d }` |
| real_arith.dfy | RealArith | integer powers, product lemmas |
| raw_payload.dfy | RawPayload | the upstream payload shapes |
| utils.dfy | Utils | `safeDivide`, `csvEscape`, the CSV text, and a reader for it |
| validation.dfy | Validation | `warnIfMissing` and `warnIfDerived` on a shared warnings list (class `WarningLog`) |
| normalize.dfy | Normalize | statement mapping, derived fields, prices, `normalizeYahoo`, `normalizeDemo` |
| yahoo_proxy.dfy | YahooProxy | response adapter and request URLs |
| storage.dfy | Storage | the settings store and the TTL cache (class `LocalStore`) |
| forecast.dfy | Forecast | `buildForecast` |
| dcf.dfy | Dcf | `computeDcf`, `buildSensitivity`, `computeEquityValue` |
| lbo.dfy | Lbo | `computeLbo` without the IRR |
| ma.dfy | Ma | `computeMA` |
| capital.dfy | Capital | CAPM, WACC, rating spread, cost of debt, target leverage |
| ratios.dfy | Ratios | `computeRatios` |
| comps.dfy | Comps | `buildComps`, `summarizeComps` |

Money and rates are `real`, so the arithmetic is exact.

Null and undefined are both `Option.None`. Where the two behave differently,
the member says which one `None` stands for.

The modules' `assumptions.x || d` is `Setting(a, "x", d)`: an absent key or an
explicit 0 gives the default. The `capital.js` destructuring defaults are
`Given(x, d)`: only an absent value takes the default, and 0 is kept.

Code that updates state step by step is imperative Dafny:

- The warnings list is a `WarningLog` object whose `entries` the mappers
  append to.
- The forecast roll-forward and the LBO debt schedule are loops.
- The comps median sorts a fresh array in place.
- `localStorage` is the `items` map of a `LocalStore` object.

Each method is proved against a pure function of its inputs or old state.
The properties are proved about those functions.

Observations on the code, which the model keeps:

- The quick-ratio numerator adds cash back after taking it away, so the quick
  ratio always equals the current ratio.
- A median of exactly 0 is reported as null.
- A zero growth rate still compounds at 5%.
- A zero financing mix in the merger model is replaced by its default, so an
  all-cash deal cannot be expressed.
- Merging a company with an identical copy of itself gives an accretion of 1,
  not 0: no new shares are counted.
- The LBO balance is non-increasing only for a non-negative amortisation
  rate. A negative rate is truthy and makes the debt grow.
- The quote URL's module list has no quarterly statements, but the
  normaliser reads quarterly histories when they are there.
- A carriage return alone does not make `csvEscape` quote a field.

## Model

| member | source | states |
|---|---|---|
| Utils.SafeDivide | src/core/utils.js:24-27 | null exactly when the denominator is null or 0; otherwise the result times the denominator is the numerator, a null numerator counting as 0 |
| Utils.CsvEscape | src/core/utils.js:52-59 | un-escaping the field gives back the cell text (null/undefined give ""); without a carriage return the field is well formed per section 2 of RFC 4180 |
| Utils.PlainTextUnchanged | src/core/utils.js:54-58 | text without comma, double quote or newline is returned unchanged |
| Utils.CarriageReturnNotQuoted | src/core/utils.js:54 | a lone `\r` does not trigger quoting, so such a field is not well formed |
| Utils.CollapseDoubled | src/core/utils.js:56 | collapsing `""` to `"` undoes the quote doubling |
| Utils.DoubledIsEscaped | src/core/utils.js:56 | after doubling, every quote inside the field is part of a `""` pair |
| Utils.QuotedRoundTrip | src/core/utils.js:55-57 | reading a quoted body stops at the closing quote and returns the original text |
| Utils.BareRoundTrip | src/core/utils.js:54-58 | reading an unquoted field stops at the next comma or newline and returns the text |
| Utils.QuotedFieldRoundTrip | src/core/utils.js:55-57 | a quoted field reads back as its text, leaving the rest of the line |
| Utils.BareFieldRoundTrip | src/core/utils.js:58 | an unquoted field reads back as its text, leaving the rest of the line |
| Utils.FieldRoundTrip | src/core/utils.js:52-59 | every escaped cell reads back as its text |
| Utils.RecordRoundTrip | src/core/utils.js:62 | a row joined with commas reads back as the row's cell texts |
| Utils.TableRoundTrip | src/core/utils.js:62 | rows escaped cell by cell, joined with commas and then with newlines, read back as exactly the table of cell texts when no row is empty |
| Utils.CsvText | src/core/utils.js:62 | the text written for at least one row, none empty, parses back as the table of cell texts |
| Validation.WarningLog.WarnIfMissing | src/core/validation.js:1-7 | the list becomes the old list followed by one entry per missing listed field, in list order |
| Validation.WarningLog.WarnIfDerived | src/core/validation.js:9-13 | the note is appended once when the flag is set; otherwise the list is unchanged |
| Validation.MissingWarningsShape | src/core/validation.js:4 | each appended entry reads `<label>: Missing <field>` for a listed field that is null or undefined |
| Validation.MissingWarningsLength | src/core/validation.js:2-6 | the number of entries appended is the number of missing fields, at most the number listed |
| Validation.NoWarningsIffAllPresent | src/core/validation.js:2-6 | nothing is appended exactly when every listed field is present |
| Validation.MissingFieldIsReported | src/core/validation.js:2-4 | every missing listed field is reported |
| Normalize.PickPeriodItems | src/normalize/normalize.js:3-7 | one period item per input item, in order, wrapping that item and dated by the item's fallback chain |
| Normalize.PeriodDateOf | src/normalize/normalize.js:5 | the period date is never the empty text |
| Normalize.PeriodDateFallback | src/normalize/normalize.js:5 | a non-empty `endDate.fmt`, else a truthy `endDate` itself, else a non-empty `date`, else `N/A` |
| Normalize.GetValueReadsTheField | src/normalize/normalize.js:9-14 | `raw` of a wrapped field, a bare number as is, null for an absent field or anything else |
| Normalize.MapIncome | src/normalize/normalize.js:16-44 | returns the income record of the item and appends exactly its income warnings |
| Normalize.MapBalance | src/normalize/normalize.js:46-76 | returns the balance record of the item and appends exactly its balance warnings |
| Normalize.MapCashflow | src/normalize/normalize.js:78-98 | returns the cash-flow record of the item and appends exactly its cash-flow warnings |
| Normalize.IncomePeriods | src/normalize/normalize.js:117-121 | one dated income record per period item, carrying the item's date |
| Normalize.BalancePeriods | src/normalize/normalize.js:117-121 | one dated balance record per period item, carrying the item's date |
| Normalize.CashflowPeriods | src/normalize/normalize.js:117-121 | one dated cash-flow record per period item, carrying the item's date |
| Normalize.NormalizeIncome | src/normalize/normalize.js:117-125 | the loop yields the income periods and appends each item's warnings in item order |
| Normalize.NormalizeBalance | src/normalize/normalize.js:117-127 | the loop yields the balance periods and appends each item's warnings in item order |
| Normalize.NormalizeCashflow | src/normalize/normalize.js:117-129 | the loop yields the cash-flow periods and appends each item's warnings in item order |
| Normalize.KeptPointsAreTheKnownCloses | src/normalize/normalize.js:100-107 | the price points are exactly the timestamps with a non-null close, in their order, a missing close counting as null |
| Normalize.MapPrices | src/normalize/normalize.js:100-107 | one point per timestamp with a known close, so never more points than timestamps |
| Normalize.MapPricesKeepsKnownCloses | src/normalize/normalize.js:100-107 | the same for a whole chart, with at most one point per timestamp |
| Normalize.NormalizeYahoo | src/normalize/normalize.js:109-137 | warnings go after those already in the list, in the order income, balance, cash flow (annual before quarterly), and the result carries the whole list |
| Normalize.NormalizeDemo | src/normalize/normalize.js:139-149 | every field passes through and the warnings are empty |
| Normalize.EbitdaResolution | src/normalize/normalize.js:22 | EBITDA is the source value, else EBIT + depreciation when both are present, else null; never 0 by default |
| Normalize.DerivedEbitdaNoted | src/normalize/normalize.js:23 | the derived-EBITDA note is appended exactly when the source EBITDA is null and the result is not |
| Normalize.TotalDebtAlwaysKnown | src/normalize/normalize.js:52-55 | total debt is never null; without a source value it is short + long debt, missing parts as 0, and the derived-debt note fires exactly then |
| Normalize.FreeCashFlowFallback | src/normalize/normalize.js:79-82 | FCF falls back to operating cash flow + capex only when both are present, and the derived-FCF note fires exactly when the fallback gave the value |
| Normalize.KeyPreference | src/normalize/normalize.js:47-83 | for each pair of key names, the first is used when present and the second otherwise |
| Normalize.DerivedDebtExample | src/normalize/normalize.js:52-63 | short 10 and long 20 give total debt 30, one derived-debt note and no missing-debt warning |
| YahooProxy.ParseYahooQuoteSummary | src/api/yahooProxy.js:3-6 | the nested `quoteSummary.result[0]` when truthy, else the flat `result[0]`, else `{}` |
| YahooProxy.PickResult | src/api/yahooProxy.js:4 | the nested `result[0]` when present, else the flat `result[0]`, else `{}` |
| YahooProxy.AdaptYahooPayload | src/api/yahooProxy.js:18-24 | the payload is exactly the picked summary and the picked chart |
| YahooProxy.EitherNestingWorks | src/api/yahooProxy.js:3-24 | either response nesting yields the same summary and chart; neither yields empty objects |
| YahooProxy.StripTrailingSlash | src/api/yahooProxy.js:9 | removes one trailing slash when there is one, and nothing else |
| YahooProxy.QuoteSummaryUrl | src/api/yahooProxy.js:9 | the URL starts with the stripped base and `/quoteSummary/`, ends with the fixed modules query, and the ticker is what lies between |
| YahooProxy.ChartUrl | src/api/yahooProxy.js:14 | the URL starts with the stripped base and `/chart/`, ends with the fixed range query, and the ticker is what lies between |
| YahooProxy.OnlyOneSlashStripped | src/api/yahooProxy.js:14 | a base ending in two slashes keeps one of them |
| Storage.CacheKey | src/core/storage.js:13 | the key is the cache prefix followed by ticker, endpoint and period joined by `:` |
| Storage.LocalStore.LoadSettings | src/core/storage.js:4-7 | the saved settings, or `{}` when none are saved |
| Storage.LocalStore.SaveSettings | src/core/storage.js:9-11 | only the settings key changes, to the given settings |
| Storage.LocalStore.ReadCache | src/core/storage.js:15-21 | null exactly when the key is absent or the entry is older than the TTL; otherwise the stored entry |
| Storage.LocalStore.WriteCache | src/core/storage.js:23-28 | only that key changes, to the payload stamped with the current time |
| Storage.LocalStore.ClearCache | src/core/storage.js:30-36 | the store loses exactly its cache-prefixed keys |
| Storage.ArrayTimestampIsCoerced | src/core/storage.js:19 | an array timestamp is coerced as the subtraction does: `[]` is time 0 and `[t]` time `t`, so those entries go stale; two elements give NaN and never do |
| Storage.ReadAfterWrite | src/core/storage.js:19-27 | an entry read back within the TTL, including at exactly the TTL, is the one written; later it is gone |
| Storage.WriteTouchesOnlyItsKey | src/core/storage.js:23-28 | writing one key leaves every other key's cached value as it was |
| Storage.ClearCacheKeepsSettings | src/core/storage.js:30-36 | the settings survive clearing the cache, every cache key goes, and every other key stays |
| Storage.LocalStore.SettingsRoundTrip | src/core/storage.js:4-11 | settings loaded after saving are the ones saved, and only the settings key changed |
| Storage.LocalStore.CacheRoundTrip | src/core/storage.js:15-28 | an entry read back at the moment it was written is the stamped payload for any TTL ≥ 0, and null for a negative TTL |
| Forecast.BuildForecast | src/modules/forecast.js:1-23 | exactly `years` rows (default 5), row k being year k of the compounding roll-forward from the seed revenue |
| Forecast.YearLabel | src/modules/forecast.js:13 | every label starts with `FY+` |
| Forecast.ParseNatToString | src/modules/forecast.js:13 | the year number in a label reads back as the year |
| Forecast.YearLabelsDistinct | src/modules/forecast.js:13 | different years get different labels |
| Forecast.RunningProductIsPower | src/modules/forecast.js:6 | the running product after i steps is seed × g^i |
| Forecast.RevenueIsCompounded | src/modules/forecast.js:6 | row i's revenue is seed × (1 + growth)^i |
| Forecast.ZeroGrowthIsDefault | src/modules/forecast.js:6 | an absent or zero growth rate becomes 5% |
| Forecast.ZeroGrowthCompoundsAtFivePercent | src/modules/forecast.js:6 | with growth absent or 0, revenue still compounds at 5% a year |
| Forecast.PositiveGrowthIncreasesRevenue | src/modules/forecast.js:6 | with a positive seed and growth, each year's revenue exceeds the last |
| Forecast.ZeroSeedGivesZeroRows | src/modules/forecast.js:4-11 | with a seed of 0 every line of every year is 0 |
| Forecast.LinesAreShares | src/modules/forecast.js:7-11 | EBITDA, EBIT, D&A, capex and NWC are each that year's revenue times its rate |
| Forecast.SeedIsLatestRevenue | src/modules/forecast.js:2-4 | the seed is the first period's revenue, or 0 without a period or a revenue |
| Dcf.Cashflows | src/modules/dcf.js:8-14 | one cash flow per forecast year, in order, keeping the year and adding its unlevered FCF |
| Dcf.PresentValue | src/modules/dcf.js:18 | the present value compounded back over the years gives the value |
| Dcf.FcfIsShareOfRevenue | src/modules/dcf.js:9 | a forecast year's unlevered FCF is revenue × (EBIT margin × (1 − tax) + D&A − capex − NWC rates); 10.86% of revenue at the default rates |
| Dcf.Discount | src/modules/dcf.js:16-19 | one discounted row per cash flow, in order, keeping the year |
| Dcf.TerminalValue | src/modules/dcf.js:21-23 | the terminal value times (wacc − g) is the last FCF × (1 + g); 0 without cash flows |
| Dcf.ComputeDcf | src/modules/dcf.js:3-38 | the effective rates, the cash flows, row k discounted over k years, the terminal value and its pv over n years, EV as their sum, and null equity fields |
| Dcf.BuildSensitivity | src/modules/dcf.js:40-47 | one row per wacc and one cell per growth; cell (i, j) is the EV with those two rates substituted |
| Dcf.ComputeEquityValue | src/modules/dcf.js:49-55 | equity + (net debt or 0) = EV; the implied price is null exactly for null or 0 shares, else times shares gives equity |
| Dcf.OneYearExample | src/modules/dcf.js:21-25 | FCF 100 at wacc 10% and growth 2.5% gives a terminal value of 4100/3 and an EV of 4000/3 |
| Dcf.SumPvNonNegative | src/modules/dcf.js:25 | a sum of non-negative present values is non-negative |
| Dcf.PresentValueNonNegative | src/modules/dcf.js:18 | discounting a non-negative value at a rate above −100% stays non-negative |
| Dcf.TerminalValueNonNegative | src/modules/dcf.js:21-23 | with wacc above g above −100%, a non-negative last FCF gives a non-negative terminal value |
| Dcf.EnterpriseValueNonNegative | src/modules/dcf.js:16-25 | with wacc above g and non-negative FCFs the valuation is finite and EV is non-negative |
| Dcf.ZeroRatesFallBack | src/modules/dcf.js:4-6 | zero rates fall back to 23% tax, 10% wacc and 2% growth, which are returned |
| Dcf.SensitivityCellRates | src/modules/dcf.js:43 | each grid cell's valuation ran at that row's wacc and that column's growth |
| Dcf.SensitivityContainsBaseCase | src/modules/dcf.js:40-47 | the cell at the base rates is the base-case EV |
| Lbo.Sources | src/modules/lbo.js:10-12 | debt + equity = entry EV × (1 + fees), with debt the debt share of that |
| Lbo.MoneyMultiple | src/modules/lbo.js:36 | null exactly when equity is 0; otherwise the multiple times equity is the exit equity |
| Lbo.DebtSchedule | src/modules/lbo.js:14-22 | one row per forecast year with its label and the balance after that year, each ≥ 0, and the final balance |
| Lbo.ComputeLbo | src/modules/lbo.js:3-38 | entry EV, sources, the schedule, exit EV, exit equity = exit EV − final balance (the initial debt for no years), and the money multiple |
| Lbo.BalanceNonNegative | src/modules/lbo.js:17 | with non-negative opening debt, every balance is ≥ 0 |
| Lbo.BalanceNonIncreasing | src/modules/lbo.js:16-17 | with non-negative debt and rate, balances never increase |
| Lbo.NegativeRateGrowsDebt | src/modules/lbo.js:16-17 | a negative rate is used as given and the balance grows |
| Lbo.AmortisationStep | src/modules/lbo.js:16-17 | one year at a rate in [0, 1] multiplies the balance by 1 − rate; the floor does not apply |
| Lbo.BalanceClosedForm | src/modules/lbo.js:14-22 | for a rate in [0, 1] the balance after k years is debt × (1 − rate)^k |
| Lbo.FullRateRepaysAtOnce | src/modules/lbo.js:16-17 | a rate of 100% or more clears the debt in the first year |
| Lbo.SourcesNonNegative | src/modules/lbo.js:10-12 | with sensible inputs both debt and equity are non-negative |
| Lbo.MultipleAboveOneIffEquityGrows | src/modules/lbo.js:36 | the money multiple exceeds 1 exactly when exit equity exceeds the equity put in |
| Ma.ProFormaEps | src/modules/ma.js:22 | the pro forma EPS is never null; times the share count (or 1) it gives the combined earnings |
| Ma.Accretion | src/modules/ma.js:23 | (accretion + 1) × standalone EPS (or 1) = pro forma EPS |
| Ma.ComputeMA | src/modules/ma.js:3-35 | purchase price, financing split, pro forma EBITDA, net debt, EPS and accretion as the deal defines them |
| Ma.FinancingSplitsThePrice | src/modules/ma.js:12-14 | cash + stock + debt = price × (sum of the mixes), which are not normalised |
| Ma.DefaultMixFundsThePrice | src/modules/ma.js:5-14 | with the default mixes, the financing adds up to exactly the price |
| Ma.AllCashIsNotExpressible | src/modules/ma.js:5-7 | asking for 100% cash and no stock or debt funds 150% of the price |
| Ma.AccretiveIffEpsRises | src/modules/ma.js:23 | with positive standalone EPS, accretive exactly when EPS rises and dilutive exactly when it falls |
| Ma.NoSharesMeansOneShare | src/modules/ma.js:22 | without a share count the pro forma EPS is the combined earnings |
| Ma.IdenticalPartiesDoubleEps | src/modules/ma.js:22-23 | merging with an identical copy and no synergies gives accretion 1 |
| Capital.ComputeWacc | src/modules/capital.js:5-8 | WACC less the after-tax cost of debt is the equity weight times the gap between the two costs |
| Capital.MapRatingToSpread | src/modules/capital.js:10-12 | the table's spread when defined, 0 included; otherwise 2% |
| Capital.ComputeCostOfDebt | src/modules/capital.js:14 | cost of debt less spread is the risk-free rate |
| Capital.ComputeTargetLeverage | src/modules/capital.js:16 | null exactly when EBITDA is null or 0; otherwise times EBITDA it gives the debt (debt defined) |
| Capital.ComputeCapm | src/modules/capital.js:3 | the cost of equity less the risk-free rate is beta times the premium, each defaulted when undefined; 9.5% with every input undefined |
| Capital.CapmKeepsGivenZero | src/modules/capital.js:3 | an explicit 0 beta or premium is kept, giving the risk-free rate |
| Capital.CapmIncreasesWithBeta | src/modules/capital.js:3 | with a positive premium, a higher beta gives a higher cost of equity |
| Capital.WaccEndpoints | src/modules/capital.js:5-8 | debt weight 0 gives the cost of equity; debt weight 1 gives the after-tax cost of debt |
| Capital.WaccBetweenItsCosts | src/modules/capital.js:5-8 | for a debt weight in [0, 1] the WACC lies between the two costs |
| Capital.WaccDefaults | src/modules/capital.js:5-8 | default weights and tax give 60% of the cost of equity plus 30.8% of the cost of debt |
| Capital.CostOfDebtForRating | src/modules/capital.js:10-14 | a rating with spread 0 costs the risk-free rate; an unrated issuer pays 2% over |
| Ratios.ComputeRatios | src/modules/ratios.js:3-43 | one row per income period, in order, with its date, paired with the balance and cash rows at the same index (an empty record when missing) |
| Ratios.MarginsOverRevenue | src/modules/ratios.js:27-39 | each margin is null exactly without a usable revenue, and times revenue gives its numerator |
| Ratios.ReturnsOverTheirBase | src/modules/ratios.js:30-40 | ROE, ROA and FCF conversion are null exactly without a usable base, and times the base give their numerator |
| Ratios.RoicFromNopat | src/modules/ratios.js:21-32 | ROIC is 0.75 × EBIT over total assets less current liabilities, null exactly when that is 0 |
| Ratios.RatiosOf | src/modules/ratios.js:24-41 | the row keeps the period's date, has a null revenue CAGR, and its quick ratio equals its current ratio |
| Ratios.QuickRatioIsCurrentRatio | src/modules/ratios.js:33-34 | the quick ratio always equals the current ratio |
| Ratios.LeverageRatios | src/modules/ratios.js:35-38 | debt and net debt over EBITDA, debt over equity and EBIT over interest, each null exactly without a usable denominator |
| Ratios.RevenueCagrIsNull | src/modules/ratios.js:26 | the revenue CAGR is always null |
| Ratios.MissingBalanceRowGivesNullRatios | src/modules/ratios.js:5-37 | a period without a balance row gets no balance-sheet ratio |
| Ratios.MissingCashflowRowGivesNullRatios | src/modules/ratios.js:6-40 | a period without a cash-flow row gets no cash-flow ratio |
| Comps.Multiple | src/modules/comps.js:4-6 | present exactly when both operands are truthy; then the quotient, never 0 |
| Comps.BuildComps | src/modules/comps.js:1-10 | one row per peer, in order, keeping the peer and adding its three multiples |
| Comps.MultiplesOfARow | src/modules/comps.js:5-6 | each row's EV/EBITDA and P/E are present exactly with truthy operands, and are then their quotients |
| Comps.MetricValuesArePresentEntries | src/modules/comps.js:16 | the values are exactly the rows' non-null entries for the metric |
| Comps.NullsAreSkipped | src/modules/comps.js:16-20 | rows without the metric contribute nothing: all-null gives no values, infinite bounds and no median |
| Comps.LeastIsMinimum | src/modules/comps.js:18 | the minimum is one of the values and no value is below it |
| Comps.GreatestIsMaximum | src/modules/comps.js:19 | the maximum is one of the values and no value is above it |
| Comps.Insert | src/modules/comps.js:20 | inserting adds exactly the one value |
| Comps.InsertKeepsSorted | src/modules/comps.js:20 | inserting into sorted values keeps them sorted |
| Comps.SortSeqSorts | src/modules/comps.js:20 | the ascending order is sorted and a permutation of the values |
| Comps.SortedUnique | src/modules/comps.js:20 | two sorted permutations of the same values are equal, so any ascending sort gives the same median |
| Comps.SortInPlace | src/modules/comps.js:20 | the array ends sorted and a permutation of its old contents |
| Comps.MetricStats | src/modules/comps.js:16-21 | one metric's min, max and median, the median read from a freshly sorted copy |
| Comps.SummaryHasEachMetric | src/modules/comps.js:13-23 | the filled summary has exactly the three keys, each with its metric's statistics |
| Comps.SummarizeComps | src/modules/comps.js:12-24 | the summary has exactly the keys `evRevenue`, `evEbitda` and `pe`, each the statistics of that metric's values |
| Comps.MedianOf | src/modules/comps.js:20 | no values give null; a present median is one of the values and is never 0 |
| Comps.MedianBetweenMinAndMax | src/modules/comps.js:18-20 | a present median lies between the minimum and the maximum |
| Comps.ThreePeerExample | src/modules/comps.js:18-20 | the values 5, 9, 7 give min 5, median 7, max 9 |
| Comps.MedianNullCases | src/modules/comps.js:18-20 | no values give infinite bounds and no median; a median of 0 is null |

## Left out

- Network code: `fetchWithRetry`, `sleep` and the `fetch` calls behind `fetchQuoteSummary` and `fetchChart` are asynchronous I/O with timers. Only the URLs they request are modelled.
- Formatting: `formatCurrency`, `formatNumber`, `formatPercent` and `src/core/format.js` depend on locale-aware number formatting.
- `exportToCsv`: the Blob, the link element and the download are browser-only. Only the text written is modelled.
- Utils.CsvEscape: cells are given as text. JavaScript's `String(value)` conversion of numbers is not modelled.
- Utils.TableRoundTrip: it requires at least one row and no empty row; Utils.CsvText promises the read-back under the same condition. An empty row writes the same text as a row with one empty cell.
- Normalize.MapPrices: the date text is produced by a `dateOf` parameter. The `Date`/ISO-string conversion is not modelled.
- Normalize.PickPeriodItems: an `endDate` object whose `fmt` is empty is passed through as the date itself (`EndDateObjectAsDate`). Its other contents are not modelled.
- Normalize.GetValue: a `raw` that is not a number or null (text such as `"12"`, say) is not modelled. The source returns it as is, so it would also silence the missing-field warning; in the model such a field is `Other` and reads as null.
- Normalize.NormalizeDemo: the contents of the bundled demo dataset are not part of this model. Any dataset already in canonical form is accepted.
- Storage: `JSON.stringify`/`JSON.parse` are taken to be lossless, so a stored value is a JSON value. `Date.now()` is the `now` parameter.
- Storage.TimestampOf: a `timestamp` stored as text counts as NaN, so the entry is never stale, where JavaScript would coerce numeric text to a number. Arrays are coerced as JavaScript does (`[]` and `[null]` to 0, `[t]` to `t`, two or more elements to NaN), except an array holding one text, which counts as NaN too. `writeCache` always stores a number.
- Storage.LocalStore.ReadCache: it requires that a stored value is not `null`. The source would throw on `null.timestamp`.
- Lbo.ComputeLbo: the IRR is left out, because `Math.pow` with a fractional exponent has no exact real counterpart.
- Forecast.Horizon: `years` is an integer or undefined. A `null` or fractional `years` is not modelled.
- Dcf.ComputeDcf: it requires, when there is a forecast year, that wacc differs from the terminal growth and from −1. Otherwise the source divides by zero and returns Infinity or NaN.
- Dcf.BuildSensitivity: it requires the same of every grid cell.
- Ratios.ComputeRatios: it requires that a period past the last balance row has a null or zero EBITDA, and that a period past the last cash-flow row has a null or zero revenue and net income. There the missing row's undefined `totalDebt` or `freeCashFlow` over a usable denominator gives NaN, which has no `Option` counterpart.
- Comps: `Math.min`/`Math.max` over no values are the `PosInfinity`/`NegInfinity` bounds. A NaN multiple cannot arise from real inputs and is not modelled.
- Comps.Peer: the peer fields that `buildComps` copies through are represented by one `name` field.
- Capital.ComputeTargetLeverage: it requires a defined debt whenever EBITDA is defined and non-zero. An undefined debt over a usable EBITDA gives NaN in the source, which has no `Option` counterpart.
- Capital.ComputeWacc: the two costs are numbers. An undefined cost has no default in the source and would give NaN.
- Capital: `None` is an undefined input, which takes the destructuring default. An explicit `null`, which JavaScript does not replace, is not modelled.
- Floating-point rounding is not modelled: all arithmetic is exact.
- The React screens, the router, `App.jsx`'s data-source selection and its own default assumptions are user interface and are not part of this model.
