/** Discounted-cash-flow valuation of a forecast: unlevered free cash flow per
    year, its present value, a growing-perpetuity terminal value, the enterprise
    value, a sensitivity grid over the two rates, and the equity bridge. */
module Dcf {
  import opened JsValues
  import opened Utils
  import opened Forecast
  import opened RealArith

  function TaxRate(a: Assumptions): real { Setting(a, "taxRate", 0.23) }
  function Wacc(a: Assumptions): real { Setting(a, "wacc", 0.1) }
  function TerminalGrowth(a: Assumptions): real { Setting(a, "terminalGrowth", 0.02) }

  /** A forecast year with its unlevered free cash flow. */
  datatype Cashflow = Cashflow(year: ForecastYear, unleveredFcf: real)

  /** A forecast year with its free cash flow and that flow's present value. */
  datatype DiscountedYear = DiscountedYear(year: ForecastYear, unleveredFcf: real, pv: real)

  datatype DcfResult = DcfResult(
    cashflows: seq<Cashflow>, discounted: seq<DiscountedYear>,
    terminalValue: real, terminalPv: real, enterpriseValue: real,
    equityValue: Option<real>, impliedPrice: Option<real>,
    wacc: real, terminalGrowth: real)

  /** EBIT after tax, plus D&A, less capex and the working-capital build. The
      forecast's lines are always numbers, so `x || 0` is `x` for each. */
  function UnleveredFcf(y: ForecastYear, tax: real): real
  {
    y.ebit * (1.0 - tax) + y.dAndA - y.capex - y.nwc
  }

  /** The inputs for which every division in `computeDcf` has a non-zero
      divisor: with at least one year, wacc differs from the terminal growth
      and from -1 (where `(1 + wacc) ** k` is 0). */
  predicate FiniteValuation(forecast: seq<ForecastYear>, a: Assumptions)
  {
    |forecast| > 0 ==> Wacc(a) != TerminalGrowth(a) && Wacc(a) != -1.0
  }

  function Cashflows(forecast: seq<ForecastYear>, tax: real): (r: seq<Cashflow>)
    ensures |r| == |forecast|
    ensures forall k :: 0 <= k < |r| ==> r[k] == Cashflow(forecast[k], UnleveredFcf(forecast[k], tax))
  {
    seq(|forecast|, k requires 0 <= k < |forecast| => Cashflow(forecast[k], UnleveredFcf(forecast[k], tax)))
  }

  /** `value / (1 + wacc) ** years`: grown back at wacc for that many years,
      the present value is the value again. */
  function PresentValue(value: real, wacc: real, years: nat): (pv: real)
    requires years > 0 ==> wacc != -1.0
    ensures pv * Pow(1.0 + wacc, years) == value
  {
    DivMul(value, Pow(1.0 + wacc, years));
    value / Pow(1.0 + wacc, years)
  }

  /** Year `k` (0-based) is discounted `k + 1` times. */
  function Discount(cashflows: seq<Cashflow>, wacc: real): (r: seq<DiscountedYear>)
    requires |cashflows| > 0 ==> wacc != -1.0
    ensures |r| == |cashflows|
    ensures forall k :: 0 <= k < |r| ==> r[k].year == cashflows[k].year
                                          && r[k].unleveredFcf == cashflows[k].unleveredFcf
                                          && r[k].pv == PresentValue(cashflows[k].unleveredFcf, wacc, k + 1)
  {
    seq(|cashflows|, k requires 0 <= k < |cashflows| =>
      DiscountedYear(cashflows[k].year, cashflows[k].unleveredFcf,
                     PresentValue(cashflows[k].unleveredFcf, wacc, k + 1)))
  }

  /** `discounted.reduce((sum, item) => sum + item.pv, 0)` */
  function SumPv(d: seq<DiscountedYear>): real
  {
    if d == [] then 0.0 else SumPv(d[..|d| - 1]) + d[|d| - 1].pv
  }

  /** Last year's flow grown once, capitalised at wacc less growth; 0 without years. */
  function TerminalValue(cashflows: seq<Cashflow>, wacc: real, g: real): (tv: real)
    requires |cashflows| > 0 ==> wacc != g
    ensures |cashflows| > 0 ==> tv * (wacc - g) == cashflows[|cashflows| - 1].unleveredFcf * (1.0 + g)
    ensures |cashflows| == 0 ==> tv == 0.0
  {
    if |cashflows| > 0 then
      var grown := cashflows[|cashflows| - 1].unleveredFcf * (1.0 + g);
      DivMul(grown, wacc - g);
      grown / (wacc - g)
    else 0.0
  }

  /** `computeDcf({ forecast, assumptions })` */
  function ComputeDcf(forecast: seq<ForecastYear>, a: Assumptions): (r: DcfResult)
    requires FiniteValuation(forecast, a)
    ensures r.wacc == Wacc(a) && r.terminalGrowth == TerminalGrowth(a)
    ensures |r.cashflows| == |forecast| && |r.discounted| == |forecast|
    ensures forall k :: 0 <= k < |forecast| ==>
              r.cashflows[k].year == forecast[k] && r.discounted[k].year == forecast[k]
              && r.cashflows[k].unleveredFcf == UnleveredFcf(forecast[k], TaxRate(a))
              && r.discounted[k].unleveredFcf == r.cashflows[k].unleveredFcf
    ensures forall k :: 0 <= k < |forecast| ==>
              r.discounted[k].pv == PresentValue(r.cashflows[k].unleveredFcf, r.wacc, k + 1)
    ensures r.terminalValue == TerminalValue(r.cashflows, r.wacc, r.terminalGrowth)
    ensures r.terminalPv == PresentValue(r.terminalValue, r.wacc, |forecast|)
    ensures r.enterpriseValue == SumPv(r.discounted) + r.terminalPv
    ensures r.equityValue.None? && r.impliedPrice.None?
  {
    var wacc := Wacc(a);
    var g := TerminalGrowth(a);
    var cashflows := Cashflows(forecast, TaxRate(a));
    var discounted := Discount(cashflows, wacc);
    var terminalValue := TerminalValue(cashflows, wacc, g);
    var terminalPv := PresentValue(terminalValue, wacc, |cashflows|);
    DcfResult(cashflows, discounted, terminalValue, terminalPv, SumPv(discounted) + terminalPv,
              None, None, wacc, g)
  }

  // ---------------------------------------------------------------------
  // Sensitivity grid and equity bridge

  /** `{ ...assumptions, wacc, terminalGrowth: growth }` */
  function WithRates(a: Assumptions, wacc: real, growth: real): Assumptions
  {
    a["wacc" := wacc]["terminalGrowth" := growth]
  }

  /** Every cell of the grid is a finite valuation. */
  predicate FiniteGrid(waccs: seq<real>, growths: seq<real>, baseForecast: seq<ForecastYear>, a: Assumptions)
  {
    forall i, j :: 0 <= i < |waccs| && 0 <= j < |growths| ==>
      FiniteValuation(baseForecast, WithRates(a, waccs[i], growths[j]))
  }

  /** `buildSensitivity({ waccs, terminalGrowths, baseForecast, assumptions })` */
  function BuildSensitivity(waccs: seq<real>, growths: seq<real>, baseForecast: seq<ForecastYear>,
                            a: Assumptions): (grid: seq<seq<real>>)
    requires FiniteGrid(waccs, growths, baseForecast, a)
    ensures |grid| == |waccs|
    ensures forall i :: 0 <= i < |grid| ==> |grid[i]| == |growths|
    ensures forall i, j :: 0 <= i < |waccs| && 0 <= j < |growths| ==>
              grid[i][j] == ComputeDcf(baseForecast, WithRates(a, waccs[i], growths[j])).enterpriseValue
  {
    seq(|waccs|, i requires 0 <= i < |waccs| =>
      seq(|growths|, j requires 0 <= j < |growths| =>
        ComputeDcf(baseForecast, WithRates(a, waccs[i], growths[j])).enterpriseValue))
  }

  datatype EquityBridge = EquityBridge(equityValue: real, impliedPrice: Option<real>)

  /** `computeEquityValue({ enterpriseValue, netDebt, sharesOutstanding })` */
  function ComputeEquityValue(enterpriseValue: real, netDebt: Option<real>, shares: Option<real>): (r: EquityBridge)
    ensures r.equityValue + OrElse(netDebt, 0.0) == enterpriseValue
    ensures r.impliedPrice.None? <==> shares.None? || shares.value == 0.0
    ensures r.impliedPrice.Some? ==> r.impliedPrice.value * shares.value == r.equityValue
  {
    var equityValue := enterpriseValue - OrElse(netDebt, 0.0);
    EquityBridge(equityValue, SafeDivide(Some(equityValue), shares))
  }

  // ---------------------------------------------------------------------
  // Properties

  /** On a forecast year the unlevered free cash flow is a fixed share of that
      year's revenue: the after-tax EBIT margin plus the D&A rate, less the
      capex and NWC rates; 10.86% with every rate at its default. */
  lemma FcfIsShareOfRevenue(seed: real, a: Assumptions, i: nat, tax: real)
    ensures var y := Row(seed, a, i);
            UnleveredFcf(y, tax)
            == y.revenue * (EbitMargin(a) * (1.0 - tax) + DaPercent(a) - CapexPercent(a) - NwcPercent(a))
    ensures a == map[] && tax == TaxRate(a) ==> UnleveredFcf(Row(seed, a, i), tax) == Row(seed, a, i).revenue * 0.1086
  {
    var y := Row(seed, a, i);
    MulAssoc(y.revenue, EbitMargin(a), 1.0 - tax);
    assert UnleveredFcf(y, tax)
           == y.revenue * (EbitMargin(a) * (1.0 - tax)) + y.revenue * DaPercent(a)
              - y.revenue * CapexPercent(a) - y.revenue * NwcPercent(a);
    if a == map[] && tax == TaxRate(a) {
      assert EbitMargin(a) == 0.18 && DaPercent(a) == 0.03 && tax == 0.23;
      assert CapexPercent(a) == 0.04 && NwcPercent(a) == 0.02;
      assert EbitMargin(a) * (1.0 - tax) + DaPercent(a) - CapexPercent(a) - NwcPercent(a) == 0.1086;
    }
  }

  /** One year with a free cash flow of 100 at wacc 10% and growth 2.5%: the
      terminal value is 100 * 1.025 / 0.075 = 4100/3 and the enterprise value
      (100 + 4100/3) / 1.1 = 4000/3. */
  lemma OneYearExample()
    ensures var year := ForecastYear("FY+1", 0.0, 0.0, 0.0, 100.0, 0.0, 0.0);
            var a := map["wacc" := 0.1, "terminalGrowth" := 0.025];
            var r := ComputeDcf([year], a);
            r.cashflows[0].unleveredFcf == 100.0 && r.terminalValue == 4100.0 / 3.0
            && r.enterpriseValue == 4000.0 / 3.0
  {
    var year := ForecastYear("FY+1", 0.0, 0.0, 0.0, 100.0, 0.0, 0.0);
    var a := map["wacc" := 0.1, "terminalGrowth" := 0.025];
    assert Wacc(a) == 0.1 && TerminalGrowth(a) == 0.025 && TaxRate(a) == 0.23;
    var r := ComputeDcf([year], a);
    assert r.cashflows[0].unleveredFcf == 100.0;
    assert Pow(1.1, 1) == 1.1;
    assert r.discounted[0].pv == 100.0 / 1.1;
    assert SumPv(r.discounted) == r.discounted[0].pv by {
      assert r.discounted[..0] == [];
    }
  }

  /** Present values of non-negative flows sum to a non-negative amount. */
  lemma {:induction false} SumPvNonNegative(d: seq<DiscountedYear>)
    requires forall k :: 0 <= k < |d| ==> d[k].pv >= 0.0
    ensures SumPv(d) >= 0.0
  {
    if d != [] {
      SumPvNonNegative(d[..|d| - 1]);
    }
  }

  /** Discounting at a rate above -100% keeps the sign of a non-negative value. */
  lemma PresentValueNonNegative(value: real, wacc: real, years: nat)
    requires value >= 0.0 && wacc > -1.0
    ensures PresentValue(value, wacc, years) >= 0.0
  {
    QuotientNonNegative(PresentValue(value, wacc, years), Pow(1.0 + wacc, years), value);
  }

  /** The perpetuity of a non-negative flow is non-negative when wacc exceeds a
      growth rate above -100%. */
  lemma TerminalValueNonNegative(cashflows: seq<Cashflow>, wacc: real, g: real)
    requires wacc > g > -1.0
    requires |cashflows| > 0 ==> cashflows[|cashflows| - 1].unleveredFcf >= 0.0
    ensures TerminalValue(cashflows, wacc, g) >= 0.0
  {
    if |cashflows| > 0 {
      var last := cashflows[|cashflows| - 1].unleveredFcf;
      ProductNonNegative(last, 1.0 + g);
      QuotientNonNegative(TerminalValue(cashflows, wacc, g), wacc - g, last * (1.0 + g));
    }
  }

  /** With non-negative flows and wacc above a growth rate above -100%, the
      enterprise value is not negative. */
  lemma EnterpriseValueNonNegative(forecast: seq<ForecastYear>, a: Assumptions)
    requires Wacc(a) > TerminalGrowth(a) > -1.0
    requires forall k :: 0 <= k < |forecast| ==> UnleveredFcf(forecast[k], TaxRate(a)) >= 0.0
    ensures FiniteValuation(forecast, a)
    ensures ComputeDcf(forecast, a).enterpriseValue >= 0.0
  {
    var r := ComputeDcf(forecast, a);
    forall k | 0 <= k < |r.discounted| ensures r.discounted[k].pv >= 0.0 {
      PresentValueNonNegative(r.cashflows[k].unleveredFcf, Wacc(a), k + 1);
    }
    SumPvNonNegative(r.discounted);
    TerminalValueNonNegative(r.cashflows, Wacc(a), TerminalGrowth(a));
    PresentValueNonNegative(r.terminalValue, Wacc(a), |forecast|);
  }

  /** A zero or absent rate falls back to its default: 23% tax, 10% wacc, 2% growth. */
  lemma ZeroRatesFallBack(forecast: seq<ForecastYear>, a: Assumptions)
    requires forall key :: key in a ==> a[key] == 0.0
    ensures FiniteValuation(forecast, a)
    ensures TaxRate(a) == 0.23
    ensures ComputeDcf(forecast, a).wacc == 0.1 && ComputeDcf(forecast, a).terminalGrowth == 0.02
  {
  }

  /** A sensitivity cell values the forecast at its own row's wacc and its
      column's growth, except that a 0 in the grid falls back to the default. */
  lemma SensitivityCellRates(waccs: seq<real>, growths: seq<real>, baseForecast: seq<ForecastYear>,
                             a: Assumptions, i: nat, j: nat)
    requires FiniteGrid(waccs, growths, baseForecast, a)
    requires i < |waccs| && j < |growths|
    ensures var cell := ComputeDcf(baseForecast, WithRates(a, waccs[i], growths[j]));
            cell.wacc == (if waccs[i] != 0.0 then waccs[i] else 0.1)
            && cell.terminalGrowth == (if growths[j] != 0.0 then growths[j] else 0.02)
            && TaxRate(WithRates(a, waccs[i], growths[j])) == TaxRate(a)
  {
    assert "wacc" != "taxRate" && "terminalGrowth" != "taxRate" && "terminalGrowth" != "wacc";
  }

  /** The cell whose rates are the base case's effective rates is the base
      enterprise value. */
  lemma SensitivityContainsBaseCase(waccs: seq<real>, growths: seq<real>, baseForecast: seq<ForecastYear>,
                                    a: Assumptions, i: nat, j: nat)
    requires FiniteGrid(waccs, growths, baseForecast, a) && FiniteValuation(baseForecast, a)
    requires i < |waccs| && j < |growths|
    requires waccs[i] == Wacc(a) && growths[j] == TerminalGrowth(a)
    ensures BuildSensitivity(waccs, growths, baseForecast, a)[i][j] == ComputeDcf(baseForecast, a).enterpriseValue
  {
    var b := WithRates(a, waccs[i], growths[j]);
    SensitivityCellRates(waccs, growths, baseForecast, a, i, j);
    assert Wacc(b) == Wacc(a) && TerminalGrowth(b) == TerminalGrowth(a) && TaxRate(b) == TaxRate(a);
    assert Cashflows(baseForecast, TaxRate(b)) == Cashflows(baseForecast, TaxRate(a));
  }
}
