/** The operating forecast: rolls revenue forward from the latest reported
    period at a growth rate and derives each year's operating lines from it. */
module Forecast {
  import opened JsValues
  import opened Normalize
  import opened RealArith

  /** One projected year. */
  datatype ForecastYear = ForecastYear(
    year: string, revenue: real, ebitda: real, ebit: real, dAndA: real, capex: real, nwc: real)

  // ---------------------------------------------------------------------
  // Year labels

  function DigitChar(d: nat): char
    requires d < 10
  {
    "0123456789"[d]
  }

  /** The decimal text of `n`, as a template literal writes it. */
  function NatToString(n: nat): (s: string)
    ensures |s| > 0
    ensures forall k :: 0 <= k < |s| ==> '0' <= s[k] <= '9'
  {
    if n < 10 then [DigitChar(n)] else NatToString(n / 10) + [DigitChar(n % 10)]
  }

  /** Reads a text of decimal digits back as a number. */
  function ParseNat(s: string): nat
    requires forall k :: 0 <= k < |s| ==> '0' <= s[k] <= '9'
  {
    if s == [] then 0
    else ParseNat(s[..|s| - 1]) * 10 + ((s[|s| - 1] as int) - ('0' as int))
  }

  lemma {:induction false} ParseNatToString(n: nat)
    ensures ParseNat(NatToString(n)) == n
  {
    var s := NatToString(n);
    if n >= 10 {
      ParseNatToString(n / 10);
      assert s[..|s| - 1] == NatToString(n / 10);
    }
  }

  /** `FY+${i}` */
  function YearLabel(i: nat): (s: string)
    ensures |s| > 3 && s[..3] == "FY+"
  {
    "FY+" + NatToString(i)
  }

  /** Distinct years get distinct labels: the number reads back from the label. */
  lemma YearLabelsDistinct(i: nat, j: nat)
    requires i != j
    ensures YearLabel(i) != YearLabel(j)
  {
    ParseNatToString(i);
    ParseNatToString(j);
    assert YearLabel(i)[3..] == NatToString(i);
    assert YearLabel(j)[3..] == NatToString(j);
  }

  // ---------------------------------------------------------------------
  // Assumptions with their in-module fallbacks

  function Growth(a: Assumptions): real { Setting(a, "revenueGrowth", 0.05) }
  function EbitdaMargin(a: Assumptions): real { Setting(a, "ebitdaMargin", 0.25) }
  function EbitMargin(a: Assumptions): real { Setting(a, "ebitMargin", 0.18) }
  function DaPercent(a: Assumptions): real { Setting(a, "daPercent", 0.03) }
  function CapexPercent(a: Assumptions): real { Setting(a, "capexPercent", 0.04) }
  function NwcPercent(a: Assumptions): real { Setting(a, "nwcPercent", 0.02) }

  /** `(baseIncome[0] || {}).revenue || 0` */
  function SeedRevenue(baseIncome: seq<Dated<IncomeRecord>>): real
  {
    if |baseIncome| == 0 then 0.0 else OrElse(baseIncome[0].fields.revenue, 0.0)
  }

  /** The number of rows: `years` defaults to 5, and a count below 1 gives none. */
  function Horizon(years: Option<int>): nat
  {
    match years
    case None => 5
    case Some(y) => if y < 0 then 0 else y
  }

  /** Revenue after `i` growth steps, as the loop's running product computes it. */
  function Revenue(seed: real, g: real, i: nat): real
  {
    if i == 0 then seed else Revenue(seed, g, i - 1) * g
  }

  /** The row pushed for year `i`: its label, its revenue and each operating
      line as its rate of that revenue. */
  function YearRow(i: nat, revenue: real, a: Assumptions): ForecastYear
  {
    ForecastYear(YearLabel(i), revenue, revenue * EbitdaMargin(a), revenue * EbitMargin(a),
                 revenue * DaPercent(a), revenue * CapexPercent(a), revenue * NwcPercent(a))
  }

  /** Year `i` (1-based) of the forecast. */
  function Row(seed: real, a: Assumptions, i: nat): ForecastYear
  {
    YearRow(i, Revenue(seed, 1.0 + Growth(a), i), a)
  }

  /** `buildForecast({ baseIncome, assumptions, years })` */
  method BuildForecast(baseIncome: seq<Dated<IncomeRecord>>, a: Assumptions, years: Option<int>)
    returns (forecasts: seq<ForecastYear>)
    ensures |forecasts| == Horizon(years)
    ensures forall k :: 0 <= k < |forecasts| ==> forecasts[k] == Row(SeedRevenue(baseIncome), a, k + 1)
  {
    ghost var seed := SeedRevenue(baseIncome);
    var revenue := SeedRevenue(baseIncome);
    var n := Horizon(years);
    forecasts := [];
    for i := 1 to n + 1
      invariant |forecasts| == i - 1
      invariant revenue == Revenue(seed, 1.0 + Growth(a), i - 1)
      invariant forall k :: 0 <= k < |forecasts| ==> forecasts[k] == Row(seed, a, k + 1)
    {
      revenue := revenue * (1.0 + Growth(a));
      assert revenue == Revenue(seed, 1.0 + Growth(a), i);
      forecasts := forecasts + [YearRow(i, revenue, a)];
    }
  }

  // ---------------------------------------------------------------------
  // Properties

  /** The running product is the seed times a power of the factor. */
  lemma {:induction false} RunningProductIsPower(seed: real, g: real, i: nat)
    ensures Revenue(seed, g, i) == seed * Pow(g, i)
  {
    if i > 0 {
      RunningProductIsPower(seed, g, i - 1);
      calc {
        Revenue(seed, g, i);
        Revenue(seed, g, i - 1) * g;
        seed * Pow(g, i - 1) * g;
        { MulAssoc(seed, Pow(g, i - 1), g); }
        seed * (Pow(g, i - 1) * g);
        seed * Pow(g, i);
      }
    }
  }

  /** Year `i`'s revenue is the seed compounded `i` times at the growth rate. */
  lemma RevenueIsCompounded(seed: real, a: Assumptions, i: nat)
    ensures Row(seed, a, i).revenue == seed * Pow(1.0 + Growth(a), i)
  {
    RunningProductIsPower(seed, 1.0 + Growth(a), i);
  }

  /** An explicit growth of 0 counts as absent. */
  lemma ZeroGrowthIsDefault(a: Assumptions)
    requires "revenueGrowth" !in a || a["revenueGrowth"] == 0.0
    ensures 1.0 + Growth(a) == 1.05
  {
  }

  /** An explicit growth of 0 is replaced by 5%, as is an absent one: revenue
      runs forward by a factor of 1.05 a year. */
  lemma ZeroGrowthCompoundsAtFivePercent(seed: real, a: Assumptions, i: nat)
    requires "revenueGrowth" !in a || a["revenueGrowth"] == 0.0
    ensures Row(seed, a, i).revenue == Revenue(seed, 1.05, i)
  {
    ZeroGrowthIsDefault(a);
  }

  /** A positive growth rate gives a strictly growing revenue from a positive seed. */
  lemma {:induction false} PositiveGrowthIncreasesRevenue(seed: real, a: Assumptions, i: nat)
    requires seed > 0.0 && Growth(a) > 0.0
    ensures Row(seed, a, i + 1).revenue > Row(seed, a, i).revenue
  {
    RevenueIsCompounded(seed, a, i);
    assert Row(seed, a, i).revenue > 0.0;
  }

  /** With no seed revenue every line of every year is 0. */
  lemma ZeroSeedGivesZeroRows(a: Assumptions, i: nat)
    ensures var r := Row(0.0, a, i);
            r.revenue == 0.0 && r.ebitda == 0.0 && r.ebit == 0.0 && r.dAndA == 0.0
            && r.capex == 0.0 && r.nwc == 0.0
  {
    RevenueIsCompounded(0.0, a, i);
  }

  /** Each line is its rate of that year's revenue. */
  lemma LinesAreShares(seed: real, a: Assumptions, i: nat)
    ensures var r := Row(seed, a, i);
            r.ebitda == r.revenue * EbitdaMargin(a) && r.ebit == r.revenue * EbitMargin(a)
            && r.dAndA == r.revenue * DaPercent(a) && r.capex == r.revenue * CapexPercent(a)
            && r.nwc == r.revenue * NwcPercent(a)
  {
  }

  /** The seed is the latest period's revenue; no period or no revenue gives 0. */
  lemma SeedIsLatestRevenue(baseIncome: seq<Dated<IncomeRecord>>)
    ensures |baseIncome| == 0 ==> SeedRevenue(baseIncome) == 0.0
    ensures |baseIncome| > 0 && baseIncome[0].fields.revenue.Some?
            ==> SeedRevenue(baseIncome) == baseIncome[0].fields.revenue.value
    ensures |baseIncome| > 0 && baseIncome[0].fields.revenue.None? ==> SeedRevenue(baseIncome) == 0.0
  {
  }
}
