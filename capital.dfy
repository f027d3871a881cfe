/** Cost of capital: CAPM cost of equity, cost of debt from a rating's credit
    spread, the weighted average cost of capital and a target leverage ratio.
    An input given as `None` is one left undefined, which takes the
    destructuring default where there is one. */
module Capital {
  import opened JsValues
  import opened Utils
  import opened RealArith

  /** `computeCapm({ riskFree = 0.04, beta = 1.1, erp = 0.05 })`: the
      premium over the risk-free rate is beta times the equity risk premium. */
  function ComputeCapm(riskFree: Option<real>, beta: Option<real>, erp: Option<real>): (costOfEquity: real)
    ensures costOfEquity - Given(riskFree, 0.04) == Given(beta, 1.1) * Given(erp, 0.05)
    // With every input undefined: 4% + 1.1 * 5% = 9.5%.
    ensures riskFree.None? && beta.None? && erp.None? ==> costOfEquity == 0.095
  {
    Given(riskFree, 0.04) + Given(beta, 1.1) * Given(erp, 0.05)
  }

  function TaxRate(taxRate: Option<real>): real { Given(taxRate, 0.23) }
  function DebtWeight(debtWeight: Option<real>): real { Given(debtWeight, 0.4) }

  /** The cost of debt after the tax shield. */
  function AfterTaxCostOfDebt(costOfDebt: real, taxRate: Option<real>): real
  {
    costOfDebt * (1.0 - TaxRate(taxRate))
  }

  /** `computeWacc({ costOfEquity, costOfDebt, taxRate = 0.23, debtWeight = 0.4 })`:
      the two costs weighted by `1 - debtWeight` and `debtWeight`. */
  function ComputeWacc(costOfEquity: real, costOfDebt: real, taxRate: Option<real>, debtWeight: Option<real>)
    : (wacc: real)
    ensures wacc - AfterTaxCostOfDebt(costOfDebt, taxRate)
            == (1.0 - DebtWeight(debtWeight)) * (costOfEquity - AfterTaxCostOfDebt(costOfDebt, taxRate))
  {
    var equityWeight := 1.0 - DebtWeight(debtWeight);
    costOfEquity * equityWeight + costOfDebt * (1.0 - TaxRate(taxRate)) * DebtWeight(debtWeight)
  }

  /** `mapRatingToSpread(rating, scorecard)`: the table's spread for the rating,
      0.02 when the rating is absent or its spread is null. */
  function MapRatingToSpread(rating: string, scorecard: map<string, Option<real>>): (spread: real)
    ensures rating in scorecard && scorecard[rating].Some? ==> spread == scorecard[rating].value
    ensures rating !in scorecard || scorecard[rating].None? ==> spread == 0.02
  {
    var entry := if rating in scorecard then scorecard[rating] else None;
    Given(Coalesce(entry, Some(0.02)), 0.02)
  }

  /** `computeCostOfDebt({ riskFree, spread })` */
  function ComputeCostOfDebt(riskFree: real, spread: real): (costOfDebt: real)
    ensures costOfDebt - spread == riskFree
  {
    riskFree + spread
  }

  /** `computeTargetLeverage({ debt, ebitda })`: debt over EBITDA, absent when
      EBITDA is missing or 0. An undefined debt over a usable EBITDA divides
      to NaN, which has no counterpart here, so that input is excluded. */
  function ComputeTargetLeverage(debt: Option<real>, ebitda: Option<real>): (leverage: Option<real>)
    requires debt.Some? || ebitda.None? || ebitda.value == 0.0
    ensures leverage.None? <==> ebitda.None? || ebitda.value == 0.0
    ensures leverage.Some? ==> leverage.value * ebitda.value == Given(debt, 0.0)
  {
    SafeDivide(debt, ebitda)
  }

  // ---------------------------------------------------------------------
  // Properties

  /** A given 0 is kept: a beta of 0 prices equity at the risk-free rate, and a
      premium of 0 does too. */
  lemma CapmKeepsGivenZero(riskFree: Option<real>, beta: Option<real>, erp: Option<real>)
    ensures ComputeCapm(riskFree, Some(0.0), erp) == Given(riskFree, 0.04)
    ensures ComputeCapm(riskFree, beta, Some(0.0)) == Given(riskFree, 0.04)
  {
  }

  /** With a positive premium, a higher beta gives a higher cost of equity. */
  lemma CapmIncreasesWithBeta(riskFree: Option<real>, b1: real, b2: real, erp: Option<real>)
    requires Given(erp, 0.05) > 0.0 && b1 < b2
    ensures ComputeCapm(riskFree, Some(b1), erp) < ComputeCapm(riskFree, Some(b2), erp)
  {
    ProductPositive(b2 - b1, Given(erp, 0.05));
  }

  /** At a debt weight of 0 the WACC is the cost of equity; at 1 it is the
      after-tax cost of debt. */
  lemma WaccEndpoints(costOfEquity: real, costOfDebt: real, taxRate: Option<real>)
    ensures ComputeWacc(costOfEquity, costOfDebt, taxRate, Some(0.0)) == costOfEquity
    ensures ComputeWacc(costOfEquity, costOfDebt, taxRate, Some(1.0)) == AfterTaxCostOfDebt(costOfDebt, taxRate)
  {
    var _ := ComputeWacc(costOfEquity, costOfDebt, taxRate, Some(0.0));
    var _ := ComputeWacc(costOfEquity, costOfDebt, taxRate, Some(1.0));
  }

  /** With the debt weight between 0 and 1, the WACC lies between the cost of
      equity and the after-tax cost of debt. */
  lemma WaccBetweenItsCosts(costOfEquity: real, costOfDebt: real, taxRate: Option<real>, debtWeight: Option<real>)
    requires 0.0 <= DebtWeight(debtWeight) <= 1.0
    ensures var wacc := ComputeWacc(costOfEquity, costOfDebt, taxRate, debtWeight);
            var kd := AfterTaxCostOfDebt(costOfDebt, taxRate);
            (costOfEquity <= wacc <= kd) || (kd <= wacc <= costOfEquity)
  {
    var wacc := ComputeWacc(costOfEquity, costOfDebt, taxRate, debtWeight);
    var kd := AfterTaxCostOfDebt(costOfDebt, taxRate);
    var w := 1.0 - DebtWeight(debtWeight);
    var d := costOfEquity - kd;
    assert wacc - kd == w * d;
    if d >= 0.0 {
      ProductNonNegative(w, d);
      ProductNonNegative(1.0 - w, d);
      assert costOfEquity - wacc == (1.0 - w) * d;
    } else {
      ProductNonNegative(w, -d);
      ProductNonNegative(1.0 - w, -d);
      assert wacc - costOfEquity == (1.0 - w) * (-d);
    }
  }

  /** With everything but the two costs left to its default, the WACC is 60% of
      the cost of equity and 40% of the cost of debt after 23% tax. */
  lemma WaccDefaults(costOfEquity: real, costOfDebt: real)
    ensures ComputeWacc(costOfEquity, costOfDebt, None, None) == costOfEquity * 0.6 + costOfDebt * 0.308
  {
    var _ := ComputeWacc(costOfEquity, costOfDebt, None, None);
  }

  /** A rated issuer's cost of debt is the risk-free rate plus the table's
      spread, a spread of 0 included; an unrated one pays 2% over. */
  lemma CostOfDebtForRating(riskFree: real, rating: string, scorecard: map<string, Option<real>>)
    ensures rating in scorecard && scorecard[rating] == Some(0.0)
            ==> ComputeCostOfDebt(riskFree, MapRatingToSpread(rating, scorecard)) == riskFree
    ensures rating !in scorecard
            ==> ComputeCostOfDebt(riskFree, MapRatingToSpread(rating, scorecard)) == riskFree + 0.02
  {
  }
}
