/** Merger accretion and dilution: the purchase price and its financing split,
    the combined company's EBITDA, net debt and earnings per share, and the
    change in the acquirer's earnings per share. */
module Ma {
  import opened JsValues
  import opened Utils
  import opened RealArith

  /** The inputs `computeMA` reads from each party; any of them may be absent. */
  datatype Company = Company(
    marketCap: Option<real>, ebitda: Option<real>, netIncome: Option<real>,
    netDebt: Option<real>, shares: Option<real>, eps: Option<real>)

  datatype MaResult = MaResult(
    purchasePrice: real, cashUsed: real, stockUsed: real, debtUsed: real,
    proFormaEbitda: real, proFormaNetDebt: real, proFormaEps: real, accretion: real)

  function Premium(a: Assumptions): real { Setting(a, "premium", 0.25) }
  function CashMix(a: Assumptions): real { Setting(a, "cashMix", 0.5) }
  function StockMix(a: Assumptions): real { Setting(a, "stockMix", 0.3) }
  function DebtMix(a: Assumptions): real { Setting(a, "debtMix", 0.2) }
  function Synergies(a: Assumptions): real { Setting(a, "synergies", 0.0) }
  function IntegrationCosts(a: Assumptions): real { Setting(a, "integrationCosts", 0.0) }

  /** Both parties' net income plus synergies less integration costs, missing
      values counting as 0. */
  function CombinedEarnings(acquirer: Company, target: Company, a: Assumptions): real
  {
    OrElse(acquirer.netIncome, 0.0) + OrElse(target.netIncome, 0.0) + Synergies(a) - IntegrationCosts(a)
  }

  /** `acquirer.shares || 1` and `acquirer.eps || 1` are never 0. */
  lemma FallbackOneIsNonZero(x: Option<real>)
    ensures OrElse(x, 1.0) != 0.0
  {
  }

  /** `safeDivide(combined earnings, acquirer.shares || 1)`: the divisor is
      never 0, so the pro forma EPS is always a number. */
  function ProFormaEps(acquirer: Company, target: Company, a: Assumptions): (eps: real)
    ensures eps * OrElse(acquirer.shares, 1.0) == CombinedEarnings(acquirer, target, a)
  {
    FallbackOneIsNonZero(acquirer.shares);
    SafeDivide(Some(CombinedEarnings(acquirer, target, a)), Some(OrElse(acquirer.shares, 1.0))).value
  }

  /** `safeDivide(proFormaEps, acquirer.eps || 1) - 1` */
  function Accretion(proFormaEps: real, standaloneEps: Option<real>): (r: real)
    ensures (r + 1.0) * OrElse(standaloneEps, 1.0) == proFormaEps
  {
    FallbackOneIsNonZero(standaloneEps);
    SafeDivide(Some(proFormaEps), Some(OrElse(standaloneEps, 1.0))).value - 1.0
  }

  /** `computeMA({ acquirer, target, assumptions })` */
  function ComputeMA(acquirer: Company, target: Company, a: Assumptions): (r: MaResult)
    ensures r.purchasePrice == OrElse(target.marketCap, 0.0) * (1.0 + Premium(a))
    ensures r.cashUsed == r.purchasePrice * CashMix(a)
    ensures r.stockUsed == r.purchasePrice * StockMix(a)
    ensures r.debtUsed == r.purchasePrice * DebtMix(a)
    ensures r.proFormaEbitda
            == OrElse(acquirer.ebitda, 0.0) + OrElse(target.ebitda, 0.0) + Synergies(a) - IntegrationCosts(a)
    ensures r.proFormaNetDebt - r.debtUsed == OrElse(acquirer.netDebt, 0.0) + OrElse(target.netDebt, 0.0)
    ensures r.proFormaEps * OrElse(acquirer.shares, 1.0) == CombinedEarnings(acquirer, target, a)
    ensures (r.accretion + 1.0) * OrElse(acquirer.eps, 1.0) == r.proFormaEps
  {
    var purchasePrice := OrElse(target.marketCap, 0.0) * (1.0 + Premium(a));
    var debtUsed := purchasePrice * DebtMix(a);
    var proFormaEps := ProFormaEps(acquirer, target, a);
    MaResult(
      purchasePrice, purchasePrice * CashMix(a), purchasePrice * StockMix(a), debtUsed,
      OrElse(acquirer.ebitda, 0.0) + OrElse(target.ebitda, 0.0) + Synergies(a) - IntegrationCosts(a),
      OrElse(acquirer.netDebt, 0.0) + OrElse(target.netDebt, 0.0) + debtUsed,
      proFormaEps, Accretion(proFormaEps, acquirer.eps))
  }

  // ---------------------------------------------------------------------
  // Properties

  /** The three financing amounts add up to the price times the sum of the
      mixes, which are not normalised. */
  lemma FinancingSplitsThePrice(acquirer: Company, target: Company, a: Assumptions)
    ensures var r := ComputeMA(acquirer, target, a);
            r.cashUsed + r.stockUsed + r.debtUsed == r.purchasePrice * (CashMix(a) + StockMix(a) + DebtMix(a))
  {
    var r := ComputeMA(acquirer, target, a);
    var p := r.purchasePrice;
    assert p * CashMix(a) + p * StockMix(a) + p * DebtMix(a) == p * (CashMix(a) + StockMix(a) + DebtMix(a));
  }

  /** With the default mix the financing adds up to exactly the price. */
  lemma DefaultMixFundsThePrice(acquirer: Company, target: Company, a: Assumptions)
    requires "cashMix" !in a && "stockMix" !in a && "debtMix" !in a
    ensures var r := ComputeMA(acquirer, target, a);
            r.cashUsed + r.stockUsed + r.debtUsed == r.purchasePrice
  {
    FinancingSplitsThePrice(acquirer, target, a);
    assert CashMix(a) + StockMix(a) + DebtMix(a) == 1.0;
  }

  /** A mix of 0 is replaced by its default, so an all-cash deal cannot be
      expressed: asking for 100% cash and no stock or debt funds 150% of the
      price. */
  lemma AllCashIsNotExpressible(acquirer: Company, target: Company)
    ensures var r := ComputeMA(acquirer, target, map["cashMix" := 1.0, "stockMix" := 0.0, "debtMix" := 0.0]);
            r.stockUsed == r.purchasePrice * 0.3 && r.debtUsed == r.purchasePrice * 0.2
            && r.cashUsed + r.stockUsed + r.debtUsed == r.purchasePrice * 1.5
  {
    var a := map["cashMix" := 1.0, "stockMix" := 0.0, "debtMix" := 0.0];
    assert CashMix(a) == 1.0 && StockMix(a) == 0.3 && DebtMix(a) == 0.2;
    FinancingSplitsThePrice(acquirer, target, a);
  }

  /** The sign of `r` where `(r + 1) * e == p` and `e > 0` is the sign of `p - e`. */
  lemma ChangeSign(r: real, e: real, p: real)
    requires e > 0.0 && (r + 1.0) * e == p
    ensures (r > 0.0 <==> p > e) && (r < 0.0 <==> p < e)
  {
    assert p - e == r * e;
    if r > 0.0 {
      ProductPositive(r, e);
    } else if r < 0.0 {
      ProductPositive(-r, e);
    }
  }

  /** For an acquirer with positive standalone EPS, the deal is accretive
      exactly when the pro forma EPS is higher, and dilutive exactly when it
      is lower. */
  lemma AccretiveIffEpsRises(acquirer: Company, target: Company, a: Assumptions)
    requires OrElse(acquirer.eps, 1.0) > 0.0
    ensures var r := ComputeMA(acquirer, target, a);
            (r.accretion > 0.0 <==> r.proFormaEps > OrElse(acquirer.eps, 1.0))
            && (r.accretion < 0.0 <==> r.proFormaEps < OrElse(acquirer.eps, 1.0))
  {
    var r := ComputeMA(acquirer, target, a);
    ChangeSign(r.accretion, OrElse(acquirer.eps, 1.0), r.proFormaEps);
  }

  /** An acquirer without a share count is treated as having one share: the
      pro forma EPS is the combined earnings. */
  lemma NoSharesMeansOneShare(acquirer: Company, target: Company, a: Assumptions)
    requires !Truthy(acquirer.shares)
    ensures ComputeMA(acquirer, target, a).proFormaEps == CombinedEarnings(acquirer, target, a)
  {
  }

  /** Merging a company with an identical copy of itself, with no synergies or
      costs, doubles the EPS: no new shares are issued, so the accretion is 1. */
  lemma IdenticalPartiesDoubleEps(c: Company, a: Assumptions, n: real, s: real)
    requires n != 0.0 && s != 0.0
    requires c.netIncome == Some(n) && c.shares == Some(s) && c.eps == Some(n / s)
    requires Synergies(a) == 0.0 && IntegrationCosts(a) == 0.0
    ensures ComputeMA(c, c, a).accretion == 1.0
  {
    var r := ComputeMA(c, c, a);
    assert r.proFormaEps * s == 2.0 * n;
    assert n / s * s == n;
    assert (r.accretion + 1.0) * (n / s) == r.proFormaEps;
    MulAssoc(r.accretion + 1.0, n / s, s);
    MulCancel(r.accretion + 1.0, 2.0, n / s * s);
  }
}
