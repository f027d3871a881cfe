/** Per-period financial ratios. Each income period is paired with the balance
    and cash-flow rows at the same index; every ratio is a null-safe division,
    absent when its denominator is 0 or missing. */
module Ratios {
  import opened JsValues
  import opened Utils
  import opened Normalize
  import opened RealArith

  datatype RatioRow = RatioRow(
    date: PeriodDate, revenueCagr: Option<real>,
    ebitdaMargin: Option<real>, ebitMargin: Option<real>, grossMargin: Option<real>,
    roe: Option<real>, roa: Option<real>, roic: Option<real>,
    currentRatio: Option<real>, quickRatio: Option<real>,
    debtToEbitda: Option<real>, netDebtToEbitda: Option<real>, debtToEquity: Option<real>,
    interestCoverage: Option<real>, fcfMargin: Option<real>, fcfConversion: Option<real>)

  /** `balance[index] || {}` when there is no row at that index. */
  const NoBalance := BalanceRecord(None, None, None, None, None, None, None, None, None, None)
  /** `cash[index] || {}` when there is no row at that index. */
  const NoCashflow := CashflowRecord(None, None, None, None, None)

  function BalanceAt(balance: seq<Dated<BalanceRecord>>, i: nat): BalanceRecord
  {
    if i < |balance| then balance[i].fields else NoBalance
  }

  function CashflowAt(cash: seq<Dated<CashflowRecord>>, i: nat): CashflowRecord
  {
    if i < |cash| then cash[i].fields else NoCashflow
  }

  /** Total assets less current liabilities, missing values counting as 0. */
  function InvestedCapital(b: BalanceRecord): real
  {
    OrElse(b.totalAssets, 0.0) - OrElse(b.totalCurrentLiabilities, 0.0)
  }

  /** EBIT after a flat 25% tax, or null without an EBIT. */
  function Nopat(ebit: Option<real>): Option<real>
  {
    if ebit.Some? then Some(ebit.value * 0.75) else None
  }

  /** `(cash || 0) + ((totalCurrentAssets || 0) - (cash || 0))` */
  function QuickAssets(b: BalanceRecord): real
  {
    OrElse(b.cash, 0.0) + (OrElse(b.totalCurrentAssets, 0.0) - OrElse(b.cash, 0.0))
  }

  // ---------------------------------------------------------------------
  // The ratios of one period, each a null-safe division

  function EbitdaMargin(r: IncomeRecord): Option<real> { SafeDivide(r.ebitda, r.revenue) }
  function EbitMargin(r: IncomeRecord): Option<real> { SafeDivide(r.ebit, r.revenue) }
  function GrossMargin(r: IncomeRecord): Option<real> { SafeDivide(r.grossProfit, r.revenue) }
  function Roe(r: IncomeRecord, b: BalanceRecord): Option<real> { SafeDivide(r.netIncome, b.totalEquity) }
  function Roa(r: IncomeRecord, b: BalanceRecord): Option<real> { SafeDivide(r.netIncome, b.totalAssets) }
  function Roic(r: IncomeRecord, b: BalanceRecord): Option<real> { SafeDivide(Nopat(r.ebit), Some(InvestedCapital(b))) }
  function CurrentRatio(b: BalanceRecord): Option<real> { SafeDivide(b.totalCurrentAssets, b.totalCurrentLiabilities) }
  function QuickRatio(b: BalanceRecord): Option<real> { SafeDivide(Some(QuickAssets(b)), b.totalCurrentLiabilities) }
  function DebtToEbitda(r: IncomeRecord, b: BalanceRecord): Option<real> { SafeDivide(b.totalDebt, r.ebitda) }
  function NetDebtToEbitda(r: IncomeRecord, b: BalanceRecord): Option<real>
  {
    SafeDivide(Some(OrElse(b.totalDebt, 0.0) - OrElse(b.cash, 0.0)), r.ebitda)
  }
  function DebtToEquity(b: BalanceRecord): Option<real> { SafeDivide(b.totalDebt, b.totalEquity) }
  function InterestCoverage(r: IncomeRecord): Option<real> { SafeDivide(r.ebit, r.interestExpense) }
  function FcfMargin(r: IncomeRecord, c: CashflowRecord): Option<real> { SafeDivide(c.freeCashFlow, r.revenue) }
  function FcfConversion(r: IncomeRecord, c: CashflowRecord): Option<real> { SafeDivide(c.freeCashFlow, r.netIncome) }

  /** The ratios of one period: they carry the period's date, the revenue CAGR
      is never computed, and the quick ratio comes out as the current ratio. */
  function RatiosOf(row: Dated<IncomeRecord>, b: BalanceRecord, c: CashflowRecord): (x: RatioRow)
    ensures x.date == row.date && x.revenueCagr.None?
    ensures x.quickRatio == x.currentRatio
  {
    var r := row.fields;
    assert QuickAssets(b) == Given(b.totalCurrentAssets, 0.0);
    RatioRow(
      row.date, None, EbitdaMargin(r), EbitMargin(r), GrossMargin(r), Roe(r, b), Roa(r, b), Roic(r, b),
      CurrentRatio(b), QuickRatio(b), DebtToEbitda(r, b), NetDebtToEbitda(r, b), DebtToEquity(b),
      InterestCoverage(r), FcfMargin(r, c), FcfConversion(r, c))
  }

  /** A field of a missing row is undefined, and undefined over a usable
      denominator is NaN rather than 0 or null. These inputs are excluded: a
      period without a balance row has no usable EBITDA, and one without a
      cash-flow row has no usable revenue or net income. */
  predicate NoUndefinedNumerator(income: seq<Dated<IncomeRecord>>, balance: seq<Dated<BalanceRecord>>,
                                 cash: seq<Dated<CashflowRecord>>)
  {
    forall i :: 0 <= i < |income| ==>
      (i >= |balance| ==> !Truthy(income[i].fields.ebitda))
      && (i >= |cash| ==> !Truthy(income[i].fields.revenue) && !Truthy(income[i].fields.netIncome))
  }

  /** `computeRatios({ income, balance, cash })`: one row per income period, in
      order, with that period's date. */
  function ComputeRatios(income: seq<Dated<IncomeRecord>>, balance: seq<Dated<BalanceRecord>>,
                         cash: seq<Dated<CashflowRecord>>): (rows: seq<RatioRow>)
    requires NoUndefinedNumerator(income, balance, cash)
    ensures |rows| == |income|
    ensures forall i :: 0 <= i < |income| ==> rows[i].date == income[i].date
    ensures forall i :: 0 <= i < |income| ==>
              rows[i] == RatiosOf(income[i], BalanceAt(balance, i), CashflowAt(cash, i))
  {
    seq(|income|, i requires 0 <= i < |income| => RatiosOf(income[i], BalanceAt(balance, i), CashflowAt(cash, i)))
  }

  // ---------------------------------------------------------------------
  // Properties of one period

  // A denominator is usable exactly when it is truthy: neither null nor 0.

  /** The margins are null exactly when revenue is 0 or missing, and otherwise
      times revenue give back their numerator, null counting as 0. */
  lemma MarginsOverRevenue(r: IncomeRecord, c: CashflowRecord)
    ensures EbitdaMargin(r).None? <==> !Truthy(r.revenue)
    ensures EbitdaMargin(r).Some? ==> EbitdaMargin(r).value * r.revenue.value == Given(r.ebitda, 0.0)
    ensures EbitMargin(r).None? <==> !Truthy(r.revenue)
    ensures EbitMargin(r).Some? ==> EbitMargin(r).value * r.revenue.value == Given(r.ebit, 0.0)
    ensures GrossMargin(r).None? <==> !Truthy(r.revenue)
    ensures GrossMargin(r).Some? ==> GrossMargin(r).value * r.revenue.value == Given(r.grossProfit, 0.0)
    ensures FcfMargin(r, c).None? <==> !Truthy(r.revenue)
    ensures FcfMargin(r, c).Some? ==> FcfMargin(r, c).value * r.revenue.value == Given(c.freeCashFlow, 0.0)
  {
  }

  /** Returns on equity and on assets are net income over each, null without a
      usable denominator; free-cash-flow conversion is over net income. */
  lemma ReturnsOverTheirBase(r: IncomeRecord, b: BalanceRecord, c: CashflowRecord)
    ensures Roe(r, b).None? <==> !Truthy(b.totalEquity)
    ensures Roe(r, b).Some? ==> Roe(r, b).value * b.totalEquity.value == Given(r.netIncome, 0.0)
    ensures Roa(r, b).None? <==> !Truthy(b.totalAssets)
    ensures Roa(r, b).Some? ==> Roa(r, b).value * b.totalAssets.value == Given(r.netIncome, 0.0)
    ensures FcfConversion(r, c).None? <==> !Truthy(r.netIncome)
    ensures FcfConversion(r, c).Some?
            ==> FcfConversion(r, c).value * r.netIncome.value == Given(c.freeCashFlow, 0.0)
  {
  }

  /** ROIC is NOPAT over invested capital: null exactly when invested capital
      is 0; a missing EBIT is a null numerator, which divides as 0. */
  lemma RoicFromNopat(r: IncomeRecord, b: BalanceRecord)
    ensures Roic(r, b).None? <==> InvestedCapital(b) == 0.0
    ensures Roic(r, b).Some? && r.ebit.Some? ==> Roic(r, b).value * InvestedCapital(b) == r.ebit.value * 0.75
    ensures Roic(r, b).Some? && r.ebit.None? ==> Roic(r, b).value == 0.0
  {
    if Roic(r, b).Some? && r.ebit.None? {
      MulCancel(Roic(r, b).value, 0.0, InvestedCapital(b));
    }
  }

  /** The quick-ratio numerator adds the cash back after taking it away, so the
      quick ratio is always the current ratio; both are null exactly without
      usable current liabilities. */
  lemma QuickRatioIsCurrentRatio(b: BalanceRecord)
    ensures QuickRatio(b) == CurrentRatio(b)
    ensures CurrentRatio(b).None? <==> !Truthy(b.totalCurrentLiabilities)
  {
    assert QuickAssets(b) == Given(b.totalCurrentAssets, 0.0);
  }

  /** The leverage ratios: debt and net debt over EBITDA, debt over equity and
      EBIT over interest, each null exactly without a usable denominator. Net
      debt is total debt less cash, missing values counting as 0. */
  lemma LeverageRatios(r: IncomeRecord, b: BalanceRecord)
    ensures DebtToEbitda(r, b).None? <==> !Truthy(r.ebitda)
    ensures DebtToEbitda(r, b).Some? ==> DebtToEbitda(r, b).value * r.ebitda.value == Given(b.totalDebt, 0.0)
    ensures NetDebtToEbitda(r, b).None? <==> !Truthy(r.ebitda)
    ensures NetDebtToEbitda(r, b).Some?
            ==> NetDebtToEbitda(r, b).value * r.ebitda.value == OrElse(b.totalDebt, 0.0) - OrElse(b.cash, 0.0)
    ensures DebtToEquity(b).None? <==> !Truthy(b.totalEquity)
    ensures DebtToEquity(b).Some? ==> DebtToEquity(b).value * b.totalEquity.value == Given(b.totalDebt, 0.0)
    ensures InterestCoverage(r).None? <==> !Truthy(r.interestExpense)
    ensures InterestCoverage(r).Some?
            ==> InterestCoverage(r).value * r.interestExpense.value == Given(r.ebit, 0.0)
  {
  }

  /** The revenue CAGR is never computed. */
  lemma RevenueCagrIsNull(row: Dated<IncomeRecord>, b: BalanceRecord, c: CashflowRecord)
    ensures RatiosOf(row, b, c).revenueCagr.None?
  {
  }

  // ---------------------------------------------------------------------
  // Properties of the whole table

  /** A period past the end of the balance rows gets no balance-sheet ratio:
      every one of them has a missing or zero denominator. */
  lemma MissingBalanceRowGivesNullRatios(income: seq<Dated<IncomeRecord>>, balance: seq<Dated<BalanceRecord>>,
                                         cash: seq<Dated<CashflowRecord>>, i: nat)
    requires NoUndefinedNumerator(income, balance, cash)
    requires |balance| <= i < |income|
    ensures var x := ComputeRatios(income, balance, cash)[i];
            x.roe.None? && x.roa.None? && x.roic.None? && x.currentRatio.None? && x.quickRatio.None?
            && x.debtToEbitda.None? && x.netDebtToEbitda.None? && x.debtToEquity.None?
  {
    assert BalanceAt(balance, i) == NoBalance;
    assert !Truthy(income[i].fields.ebitda);
  }

  /** A period past the end of the cash-flow rows gets no cash-flow ratio. */
  lemma MissingCashflowRowGivesNullRatios(income: seq<Dated<IncomeRecord>>, balance: seq<Dated<BalanceRecord>>,
                                          cash: seq<Dated<CashflowRecord>>, i: nat)
    requires NoUndefinedNumerator(income, balance, cash)
    requires |cash| <= i < |income|
    ensures var x := ComputeRatios(income, balance, cash)[i];
            x.fcfMargin.None? && x.fcfConversion.None?
  {
    assert CashflowAt(cash, i) == NoCashflow;
    assert !Truthy(income[i].fields.revenue) && !Truthy(income[i].fields.netIncome);
  }
}
