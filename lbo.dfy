/** Leveraged-buyout returns: sources and uses at entry, a debt schedule that
    amortises the running balance each year, and the exit equity and money
    multiple. */
module Lbo {
  import opened JsValues
  import opened Utils
  import opened RealArith
  import opened Forecast

  function EntryMultiple(a: Assumptions): real { Setting(a, "entryMultiple", 8.0) }
  function ExitMultiple(a: Assumptions): real { Setting(a, "exitMultiple", 9.0) }
  function DebtPercent(a: Assumptions): real { Setting(a, "debtPercent", 0.6) }
  function Fees(a: Assumptions): real { Setting(a, "fees", 0.02) }
  function AmortPercent(a: Assumptions): real { Setting(a, "amortPercent", 0.1) }

  /** One year of the debt schedule: the forecast year's label and the balance
      at its end. */
  datatype ScheduleRow = ScheduleRow(year: string, debtBalance: real)

  datatype LboResult = LboResult(
    entryEnterpriseValue: real, debt: real, equity: real, debtSchedule: seq<ScheduleRow>,
    exitEnterpriseValue: real, exitEquityValue: real, mom: Option<real>)

  /** `Math.max(0, x)` */
  function AtLeastZero(x: real): real
  {
    if x > 0.0 then x else 0.0
  }

  /** The balance after `k` years of amortising `rate` of the running balance,
      floored at 0 each year. */
  function BalanceAfter(debt: real, rate: real, k: nat): real
  {
    if k == 0 then debt else AtLeastZero(BalanceAfter(debt, rate, k - 1) - BalanceAfter(debt, rate, k - 1) * rate)
  }

  /** `forecast[0]?.ebitda || 0` */
  function EntryEbitda(forecast: seq<ForecastYear>): real
  {
    if |forecast| > 0 then forecast[0].ebitda else 0.0
  }

  /** `forecast[forecast.length - 1]?.ebitda || 0` */
  function ExitEbitda(forecast: seq<ForecastYear>): real
  {
    if |forecast| > 0 then forecast[|forecast| - 1].ebitda else 0.0
  }

  /** Sources and uses: the enterprise value plus fees is funded by `debtPercent`
      of it in debt and the rest in equity. */
  function Sources(entryEnterpriseValue: real, fees: real, debtPercent: real): (f: (real, real))
    ensures f.0 + f.1 == entryEnterpriseValue * (1.0 + fees)
    ensures f.0 == entryEnterpriseValue * (1.0 + fees) * debtPercent
  {
    var totalUses := entryEnterpriseValue * (1.0 + fees);
    var debt := totalUses * debtPercent;
    (debt, totalUses - debt)
  }

  /** `safeDivide(exitEquityValue, equity)`: the money multiple, absent when no
      equity is put in. */
  function MoneyMultiple(exitEquityValue: real, equity: real): (mom: Option<real>)
    ensures mom.None? <==> equity == 0.0
    ensures mom.Some? ==> mom.value * equity == exitEquityValue
  {
    SafeDivide(Some(exitEquityValue), Some(equity))
  }

  /** The `forecast.map` that rolls `debtBalance` forward: one row per forecast
      year, and the balance after the last of them. */
  method DebtSchedule(forecast: seq<ForecastYear>, debt: real, rate: real)
    returns (debtSchedule: seq<ScheduleRow>, debtBalance: real)
    ensures |debtSchedule| == |forecast|
    ensures forall k :: 0 <= k < |forecast| ==>
              debtSchedule[k] == ScheduleRow(forecast[k].year, BalanceAfter(debt, rate, k + 1))
    ensures forall k :: 0 <= k < |forecast| ==> debtSchedule[k].debtBalance >= 0.0
    ensures debtBalance == BalanceAfter(debt, rate, |forecast|)
  {
    debtBalance := debt;
    debtSchedule := [];
    var i := 0;
    while i < |forecast|
      invariant 0 <= i <= |forecast|
      invariant |debtSchedule| == i
      invariant debtBalance == BalanceAfter(debt, rate, i)
      invariant forall k :: 0 <= k < i ==>
                  debtSchedule[k] == ScheduleRow(forecast[k].year, BalanceAfter(debt, rate, k + 1))
      invariant forall k :: 0 <= k < i ==> debtSchedule[k].debtBalance >= 0.0
    {
      var amort := debtBalance * rate;
      debtBalance := AtLeastZero(debtBalance - amort);
      debtSchedule := debtSchedule + [ScheduleRow(forecast[i].year, debtBalance)];
      i := i + 1;
    }
  }

  /** `computeLbo({ forecast, assumptions })`, without the IRR. */
  method ComputeLbo(forecast: seq<ForecastYear>, a: Assumptions) returns (r: LboResult)
    ensures r.entryEnterpriseValue == EntryEbitda(forecast) * EntryMultiple(a)
    ensures (r.debt, r.equity) == Sources(r.entryEnterpriseValue, Fees(a), DebtPercent(a))
    ensures |r.debtSchedule| == |forecast|
    ensures forall k :: 0 <= k < |forecast| ==>
              r.debtSchedule[k] == ScheduleRow(forecast[k].year, BalanceAfter(r.debt, AmortPercent(a), k + 1))
    ensures forall k :: 0 <= k < |forecast| ==> r.debtSchedule[k].debtBalance >= 0.0
    ensures r.exitEnterpriseValue == ExitEbitda(forecast) * ExitMultiple(a)
    ensures r.exitEquityValue == r.exitEnterpriseValue - BalanceAfter(r.debt, AmortPercent(a), |forecast|)
    ensures r.mom == MoneyMultiple(r.exitEquityValue, r.equity)
  {
    var entryMultiple := EntryMultiple(a);
    var exitMultiple := ExitMultiple(a);
    var debtPercent := DebtPercent(a);
    var fees := Fees(a);
    var entryEbitda := if |forecast| > 0 then forecast[0].ebitda else 0.0;
    var entryEnterpriseValue := entryEbitda * entryMultiple;
    var sources := Sources(entryEnterpriseValue, fees, debtPercent);
    var debt, equity := sources.0, sources.1;

    var debtSchedule, debtBalance := DebtSchedule(forecast, debt, AmortPercent(a));

    var exitEnterpriseValue := (if |forecast| > 0 then forecast[|forecast| - 1].ebitda else 0.0) * exitMultiple;
    var exitEquityValue := exitEnterpriseValue - debtBalance;
    var mom := MoneyMultiple(exitEquityValue, equity);
    r := LboResult(entryEnterpriseValue, debt, equity, debtSchedule, exitEnterpriseValue, exitEquityValue, mom);
  }

  // ---------------------------------------------------------------------
  // Properties of the debt schedule

  /** With a non-negative opening debt every balance is non-negative. */
  lemma {:induction false} BalanceNonNegative(debt: real, rate: real, k: nat)
    requires debt >= 0.0
    ensures BalanceAfter(debt, rate, k) >= 0.0
  {
    if k > 0 {
      BalanceNonNegative(debt, rate, k - 1);
    }
  }

  /** With a non-negative rate and opening debt, the balance never increases. */
  lemma BalanceNonIncreasing(debt: real, rate: real, k: nat)
    requires debt >= 0.0 && rate >= 0.0
    ensures BalanceAfter(debt, rate, k + 1) <= BalanceAfter(debt, rate, k)
  {
    var b := BalanceAfter(debt, rate, k);
    BalanceNonNegative(debt, rate, k);
    ProductNonNegative(b, rate);
  }

  /** A negative rate is truthy, so it is used as given and the balance grows:
      the schedule is non-increasing only for a non-negative rate. */
  lemma NegativeRateGrowsDebt()
    ensures BalanceAfter(100.0, -0.1, 1) == 110.0
    ensures AmortPercent(map["amortPercent" := -0.1]) == -0.1
  {
  }

  /** One year at a rate between 0% and 100% takes a non-negative balance of
      `debt * p` to `debt * (p * (1 - rate))`: the floor does not apply. */
  lemma AmortisationStep(b: real, rate: real, debt: real, p: real)
    requires b >= 0.0 && 0.0 <= rate <= 1.0 && b == debt * p
    ensures AtLeastZero(b - b * rate) == debt * (p * (1.0 - rate))
  {
    assert b - b * rate == b * (1.0 - rate);
    ProductNonNegative(b, 1.0 - rate);
    MulAssoc(debt, p, 1.0 - rate);
  }

  /** Between 0% and 100%, the floor never bites: the balance is the opening
      debt times `(1 - rate) ** k`. */
  lemma {:induction false} BalanceClosedForm(debt: real, rate: real, k: nat)
    requires debt >= 0.0 && 0.0 <= rate <= 1.0
    ensures BalanceAfter(debt, rate, k) == debt * Pow(1.0 - rate, k)
  {
    if k > 0 {
      BalanceClosedForm(debt, rate, k - 1);
      BalanceNonNegative(debt, rate, k - 1);
      AmortisationStep(BalanceAfter(debt, rate, k - 1), rate, debt, Pow(1.0 - rate, k - 1));
    }
  }

  /** A rate of 100% or more repays the whole debt in the first year. */
  lemma FullRateRepaysAtOnce(debt: real, rate: real)
    requires debt >= 0.0 && rate >= 1.0
    ensures BalanceAfter(debt, rate, 1) == 0.0
  {
    assert debt * rate >= debt * 1.0 by {
      ProductNonNegative(debt, rate - 1.0);
    }
  }

  // ---------------------------------------------------------------------
  // Properties of the financing and the return

  /** With a debt share between 0 and 1, non-negative fees and a non-negative
      entry value, both sources are non-negative. */
  lemma SourcesNonNegative(entryEnterpriseValue: real, fees: real, debtPercent: real)
    requires entryEnterpriseValue >= 0.0 && fees >= 0.0 && 0.0 <= debtPercent <= 1.0
    ensures Sources(entryEnterpriseValue, fees, debtPercent).0 >= 0.0
    ensures Sources(entryEnterpriseValue, fees, debtPercent).1 >= 0.0
  {
    var totalUses := entryEnterpriseValue * (1.0 + fees);
    ProductNonNegative(entryEnterpriseValue, 1.0 + fees);
    ProductNonNegative(totalUses, debtPercent);
    ProductNonNegative(totalUses, 1.0 - debtPercent);
    assert totalUses - totalUses * debtPercent == totalUses * (1.0 - debtPercent);
  }

  /** The money multiple exceeds 1 exactly when the exit equity exceeds the
      equity put in. */
  lemma MultipleAboveOneIffEquityGrows(exitEquityValue: real, equity: real)
    requires equity > 0.0
    ensures MoneyMultiple(exitEquityValue, equity).Some?
    ensures MoneyMultiple(exitEquityValue, equity).value > 1.0 <==> exitEquityValue > equity
  {
    var m := MoneyMultiple(exitEquityValue, equity).value;
    assert m * equity == exitEquityValue;
    if m > 1.0 {
      ProductPositive(m - 1.0, equity);
    } else {
      ProductNonNegative(1.0 - m, equity);
    }
  }
}
