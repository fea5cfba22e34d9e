/** The financial charts of the plan page: the figures read out of a business idea's
    text, the twelve-month revenue ramp, the cumulative profit-or-loss curve, the return
    on investment at four horizons, the fixed cost breakdown and the axis currency form. */
module FinancialCharts {
  import opened Common
  import opened Business

  // ---------------------------------------------------------------------------
  // Reading figures out of text

  /** One run of digits and commas, read as `parseInt(run.replace(/,/g, ""))`. */
  function RunAmount(run: string): (r: Number)
    requires forall k :: 0 <= k < |run| ==> IsDigitOrComma(run[k])
    ensures r.NaN? <==> forall k :: 0 <= k < |run| ==> run[k] == ','
    ensures r.Num? ==> r.v >= 0.0
  {
    ParseDigits(StripCommas(run))
  }

  /** `parseAmount`: every run of digits and commas is read; two or more give the mean of
      the first two, one gives its value, none gives 0. */
  function ParseAmount(s: string): (r: Number)
    ensures Runs(s, 0, IsDigitOrComma) == [] ==> r == Num(0.0)
    ensures r.Num? ==> r.v >= 0.0
  {
    RunsSatisfy(s, 0, IsDigitOrComma);
    var runs := Runs(s, 0, IsDigitOrComma);
    if |runs| > 1 then RunAmount(runs[0]).Plus(RunAmount(runs[1])).Over(Num(2.0))
    else if |runs| == 1 then RunAmount(runs[0])
    else Num(0.0)
  }

  /** A number's decimal spelling has no commas, so it reads back as itself. */
  lemma RunAmountOfNat(n: nat)
    ensures forall k :: 0 <= k < |NatToString(n)| ==> IsDigitOrComma(NatToString(n)[k])
    ensures RunAmount(NatToString(n)) == Num(n as real)
  {
    var s := NatToString(n);
    assert forall k :: 0 <= k < |s| ==> s[k] != ',';
    assert StripCommas(s) == s;
    DecimalOfNatToString(n);
  }

  /** Text without digits or commas is read as 0. */
  lemma ParseAmountWithoutDigits(s: string)
    requires forall k :: 0 <= k < |s| ==> !IsDigitOrComma(s[k])
    ensures ParseAmount(s) == Num(0.0)
  {
    RunsNone(s, 0, IsDigitOrComma);
  }

  /** A single amount among other text is read as itself. */
  lemma ParseAmountOfOne(pre: string, n: nat, post: string)
    requires forall k :: 0 <= k < |pre| ==> !IsDigitOrComma(pre[k])
    requires forall k :: 0 <= k < |post| ==> !IsDigitOrComma(post[k])
    ensures ParseAmount(pre + NatToString(n) + post) == Num(n as real)
  {
    RunAmountOfNat(n);
    RunsOfPrefixed(pre, NatToString(n), post, IsDigitOrComma);
    RunsNone(post, 0, IsDigitOrComma);
  }

  /** A range "low … high" is read as the mean of its two ends; whatever follows the
      second end does not matter. */
  lemma ParseAmountOfRange(pre: string, low: nat, mid: string, high: nat, post: string)
    requires forall k :: 0 <= k < |pre| ==> !IsDigitOrComma(pre[k])
    requires |mid| > 0 && forall k :: 0 <= k < |mid| ==> !IsDigitOrComma(mid[k])
    requires post == [] || !IsDigitOrComma(post[0])
    ensures ParseAmount(pre + NatToString(low) + mid + NatToString(high) + post) ==
            Num((low + high) as real / 2.0)
  {
    RunAmountOfNat(low);
    RunAmountOfNat(high);
    ParseAmountOfRuns(pre, NatToString(low), mid, NatToString(high), post);
  }

  /** Two runs of digits and commas apart: the mean of their values. */
  lemma ParseAmountOfRuns(pre: string, a: string, mid: string, b: string, post: string)
    requires forall k :: 0 <= k < |pre| ==> !IsDigitOrComma(pre[k])
    requires |a| > 0 && forall k :: 0 <= k < |a| ==> IsDigitOrComma(a[k])
    requires |mid| > 0 && forall k :: 0 <= k < |mid| ==> !IsDigitOrComma(mid[k])
    requires |b| > 0 && forall k :: 0 <= k < |b| ==> IsDigitOrComma(b[k])
    requires post == [] || !IsDigitOrComma(post[0])
    ensures ParseAmount(pre + a + mid + b + post) == RunAmount(a).Plus(RunAmount(b)).Over(Num(2.0))
  {
    var tail := mid + b + post;
    var s := pre + a + mid + b + post;
    assert s == pre + a + tail;
    RunsOfPrefixed(mid, b, post, IsDigitOrComma);
    assert tail[0] == mid[0];
    RunsOfPrefixed(pre, a, tail, IsDigitOrComma);
  }

  /** `parseInt(text.match(/\d+/)?.[0] || d)`: the first run of digits, or `d`. */
  function FirstNumberOr(text: string, d: nat): (n: nat)
    ensures (forall k :: 0 <= k < |text| ==> !IsDigit(text[k])) ==> n == d
  {
    match FirstRun(text, IsDigit)
    case None => d
    case Some(run) => DecimalValue(run)
  }

  /** The first number in the text is read whatever text surrounds it. */
  lemma FirstNumberOfText(pre: string, n: nat, post: string, d: nat)
    requires forall k :: 0 <= k < |pre| ==> !IsDigit(pre[k])
    requires post == [] || !IsDigit(post[0])
    ensures FirstNumberOr(pre + NatToString(n) + post, d) == n
  {
    FirstRunAfterPrefix(pre, NatToString(n), post, IsDigit);
    DecimalOfNatToString(n);
  }

  /** The figures the charts start from. */
  datatype Figures = Figures(
    investment: Number,
    monthlyRevenue: Number,
    marginPercent: nat,
    monthlyProfit: Number,
    breakEvenMonths: nat)

  const DefaultMargin: nat := 35
  const DefaultBreakEven: nat := 4

  /** The figures read out of an idea. */
  function FiguresOf(idea: BusinessIdea): (f: Figures)
    ensures f.investment == ParseAmount(idea.investmentRange)
    ensures f.monthlyRevenue == ParseAmount(idea.expectedRevenue)
    ensures f.marginPercent == FirstNumberOr(idea.profitMargin, DefaultMargin)
    ensures f.breakEvenMonths == FirstNumberOr(idea.breakEvenTime, DefaultBreakEven)
    ensures f.monthlyProfit == ProfitOf(f.monthlyRevenue, f.marginPercent)
  {
    var revenue := ParseAmount(idea.expectedRevenue);
    var margin := FirstNumberOr(idea.profitMargin, DefaultMargin);
    Figures(ParseAmount(idea.investmentRange), revenue, margin, ProfitOf(revenue, margin),
            FirstNumberOr(idea.breakEvenTime, DefaultBreakEven))
  }

  // ---------------------------------------------------------------------------
  // The twelve-month projection

  /** The share of the full monthly revenue earned in a month: 60% in months 1 and 2,
      80% in months 3 and 4, all of it from month 5 on. */
  function RampShare(month: nat): (share: real)
    ensures month <= 2 ==> share == 0.6
    ensures 3 <= month <= 4 ==> share == 0.8
    ensures month >= 5 ==> share == 1.0
  {
    if month <= 2 then 0.6 else if month <= 4 then 0.8 else 1.0
  }

  function Revenue(month: nat, monthlyRevenue: Number): (r: Number)
    ensures r.Num? <==> monthlyRevenue.Num?
    ensures r.Num? ==> r.v == monthlyRevenue.v * RampShare(month)
  {
    monthlyRevenue.Times(Num(RampShare(month)))
  }

  /** `(revenue * margin) / 100`. */
  function ProfitOf(revenue: Number, marginPercent: nat): (r: Number)
    ensures r.Num? <==> revenue.Num?
    ensures r.Num? ==> r.v == revenue.v * marginPercent as real / 100.0
  {
    revenue.Times(Num(marginPercent as real)).Over(Num(100.0))
  }

  datatype CashFlowPoint = CashFlowPoint(month: nat, revenue: Number, profit: Number, expenses: Number)

  /** One bar group of the cash-flow chart. */
  function CashFlowAt(month: nat, monthlyRevenue: Number, marginPercent: nat): (p: CashFlowPoint)
    ensures p.month == month && p.revenue == Revenue(month, monthlyRevenue)
    ensures p.profit == ProfitOf(p.revenue, marginPercent)
    ensures p.expenses.Num? <==> p.revenue.Num?
    ensures p.revenue.Num? ==> p.expenses.v + p.profit.v == p.revenue.v
  {
    var revenue := Revenue(month, monthlyRevenue);
    var profit := ProfitOf(revenue, marginPercent);
    CashFlowPoint(month, revenue, profit, revenue.Minus(profit))
  }

  /** `cashFlowData`: one point per month, months 1 to 12 in order. */
  function CashFlowData(monthlyRevenue: Number, marginPercent: nat): (r: seq<CashFlowPoint>)
    ensures |r| == 12
    ensures forall i :: 0 <= i < 12 ==> r[i] == CashFlowAt(i + 1, monthlyRevenue, marginPercent)
  {
    seq(12, i requires 0 <= i < 12 => CashFlowAt(i + 1, monthlyRevenue, marginPercent))
  }

  /** With a non-negative revenue the bars never shrink from one month to the next, and
      with a margin of at most 100% profit never exceeds revenue and expenses are never
      negative. */
  lemma CashFlowShape(monthlyRevenue: real, marginPercent: nat, i: nat, j: nat)
    requires monthlyRevenue >= 0.0 && i <= j < 12
    ensures var d := CashFlowData(Num(monthlyRevenue), marginPercent);
            d[i].revenue.v <= d[j].revenue.v && d[i].profit.v <= d[j].profit.v
    ensures marginPercent <= 100 ==>
              var p := CashFlowData(Num(monthlyRevenue), marginPercent)[i];
              p.profit.v <= p.revenue.v && p.expenses.v >= 0.0
  {
    var d := CashFlowData(Num(monthlyRevenue), marginPercent);
    MultiplyMonotone(monthlyRevenue, RampShare(i + 1), RampShare(j + 1));
    ProfitOfMonotone(d[i].revenue.v, d[j].revenue.v, marginPercent);
    if marginPercent <= 100 {
      MultiplyMonotone(monthlyRevenue, 0.0, RampShare(i + 1));
      ProfitOfBounds(d[i].revenue.v, marginPercent);
    }
  }

  /** More revenue, more profit. */
  lemma ProfitOfMonotone(a: real, b: real, marginPercent: nat)
    requires a <= b
    ensures ProfitOf(Num(a), marginPercent).v <= ProfitOf(Num(b), marginPercent).v
  {
    MultiplyMonotone(marginPercent as real, a, b);
  }

  /** A margin of at most 100% leaves the profit between 0 and the revenue. */
  lemma ProfitOfBounds(a: real, marginPercent: nat)
    requires a >= 0.0 && marginPercent <= 100
    ensures 0.0 <= ProfitOf(Num(a), marginPercent).v <= a
  {
    MultiplyMonotone(a, marginPercent as real, 100.0);
    MultiplyMonotone(a, 0.0, marginPercent as real);
  }

  /** A month's profit is the full month's profit scaled by the ramp. */
  lemma RampedProfit(month: nat, monthlyRevenue: real, marginPercent: nat)
    ensures ProfitOf(Revenue(month, Num(monthlyRevenue)), marginPercent).v ==
            ProfitOf(Num(monthlyRevenue), marginPercent).v * RampShare(month)
  {
    var s := RampShare(month);
    var m := marginPercent as real;
    assert monthlyRevenue * s * m == monthlyRevenue * m * s;
  }

  lemma MultiplyMonotone(x: real, a: real, b: real)
    requires x >= 0.0 && a <= b
    ensures x * a <= x * b && a * x <= b * x
  {
  }

  /** The profit-or-loss added up to a month: minus the investment, plus each month's
      profit up to and including that one. */
  function CumulativeProfit(month: nat, monthlyRevenue: Number, marginPercent: nat, investment: Number): (r: Number)
    ensures r.Num? <==> investment.Num? && (month == 0 || monthlyRevenue.Num?)
  {
    if month == 0 then Num(0.0).Minus(investment)
    else CumulativeProfit(month - 1, monthlyRevenue, marginPercent, investment)
           .Plus(ProfitOf(Revenue(month, monthlyRevenue), marginPercent))
  }

  /** The curve never falls when revenue and margin are non-negative. */
  lemma {:induction false} CumulativeNeverFalls(i: nat, j: nat, monthlyRevenue: real, marginPercent: nat, investment: real)
    requires i <= j && monthlyRevenue >= 0.0
    ensures CumulativeProfit(i, Num(monthlyRevenue), marginPercent, Num(investment)).v <=
            CumulativeProfit(j, Num(monthlyRevenue), marginPercent, Num(investment)).v
    decreases j
  {
    if i < j {
      CumulativeNeverFalls(i, j - 1, monthlyRevenue, marginPercent, investment);
      var rev := Revenue(j, Num(monthlyRevenue));
      assert rev.v >= 0.0 by {
        MultiplyMonotone(monthlyRevenue, 0.0, RampShare(j));
      }
      assert ProfitOf(rev, marginPercent).v >= 0.0 by {
        MultiplyMonotone(rev.v, 0.0, marginPercent as real);
      }
    }
  }

  /** From month 4 on the curve is a straight line: after the ramp the profit earned is
      that of `month - 1.2` full months. */
  lemma {:induction false} CumulativeClosedForm(month: nat, monthlyRevenue: real, marginPercent: nat, investment: real)
    requires month >= 4
    ensures CumulativeProfit(month, Num(monthlyRevenue), marginPercent, Num(investment)).v ==
            ProfitOf(Num(monthlyRevenue), marginPercent).v * (month as real - 1.2) - investment
  {
    var p := ProfitOf(Num(monthlyRevenue), marginPercent).v;
    RampedProfit(month, monthlyRevenue, marginPercent);
    if month == 4 {
      RampedProfit(1, monthlyRevenue, marginPercent);
      RampedProfit(2, monthlyRevenue, marginPercent);
      RampedProfit(3, monthlyRevenue, marginPercent);
      var c0 := CumulativeProfit(0, Num(monthlyRevenue), marginPercent, Num(investment)).v;
      var c1 := CumulativeProfit(1, Num(monthlyRevenue), marginPercent, Num(investment)).v;
      var c2 := CumulativeProfit(2, Num(monthlyRevenue), marginPercent, Num(investment)).v;
      var c3 := CumulativeProfit(3, Num(monthlyRevenue), marginPercent, Num(investment)).v;
      assert c0 == -investment;
      assert c1 == c0 + p * 0.6;
      assert c2 == c1 + p * 0.6;
      assert c3 == c2 + p * 0.8;
    } else {
      CumulativeClosedForm(month - 1, monthlyRevenue, marginPercent, investment);
    }
  }

  /** The inner loop of `breakEvenData`: the running total at one month. */
  method CumulativeAt(month: nat, monthlyRevenue: Number, marginPercent: nat, investment: Number)
    returns (total: Number)
    ensures total == CumulativeProfit(month, monthlyRevenue, marginPercent, investment)
  {
    total := Num(0.0).Minus(investment);
    var m := 1;
    while m <= month
      invariant 1 <= m <= month + 1
      invariant total == CumulativeProfit(m - 1, monthlyRevenue, marginPercent, investment)
    {
      total := total.Plus(ProfitOf(Revenue(m, monthlyRevenue), marginPercent));
      m := m + 1;
    }
  }

  /** `breakEvenData`: the running total at each of the twelve months. */
  method BreakEvenData(monthlyRevenue: Number, marginPercent: nat, investment: Number)
    returns (points: seq<Number>)
    ensures |points| == 12
    ensures forall i :: 0 <= i < 12 ==>
              points[i] == CumulativeProfit(i + 1, monthlyRevenue, marginPercent, investment)
  {
    points := [];
    var month := 1;
    while month <= 12
      invariant 1 <= month <= 13 && |points| == month - 1
      invariant forall i :: 0 <= i < |points| ==>
                  points[i] == CumulativeProfit(i + 1, monthlyRevenue, marginPercent, investment)
    {
      var total := CumulativeAt(month, monthlyRevenue, marginPercent, investment);
      points := points + [total];
      month := month + 1;
    }
  }

  // ---------------------------------------------------------------------------
  // Return on investment

  /** `((monthlyProfit * months - investment) / investment) * 100`. A zero investment
      divides by zero, which gives no finite number; that is NaN here. */
  function Roi(months: nat, monthlyProfit: Number, investment: Number): (r: Number)
    ensures r.Num? <==> monthlyProfit.Num? && investment.Num? && investment.v != 0.0
    ensures r.Num? ==> r.v * investment.v == (monthlyProfit.v * months as real - investment.v) * 100.0
  {
    if monthlyProfit.Num? && investment.Num? && investment.v != 0.0 then
      Num((monthlyProfit.v * months as real - investment.v) / investment.v * 100.0)
    else NaN
  }

  /** With a positive investment the return is non-negative exactly when the profit over
      the period covers the investment, and it grows with the period when profit is made. */
  lemma RoiMeaning(months: nat, later: nat, monthlyProfit: real, investment: real)
    requires investment > 0.0
    ensures Roi(months, Num(monthlyProfit), Num(investment)).v >= 0.0 <==>
            monthlyProfit * months as real >= investment
    ensures monthlyProfit >= 0.0 && months <= later ==>
            Roi(months, Num(monthlyProfit), Num(investment)).v <= Roi(later, Num(monthlyProfit), Num(investment)).v
  {
    var r := Roi(months, Num(monthlyProfit), Num(investment)).v;
    var gain := monthlyProfit * months as real - investment;
    assert r == gain / investment * 100.0;
    if monthlyProfit >= 0.0 && months <= later {
      MultiplyMonotone(monthlyProfit, months as real, later as real);
      var gain2 := monthlyProfit * later as real - investment;
      assert gain <= gain2;
      assert gain / investment <= gain2 / investment;
    }
  }

  /** The periods of the return-on-investment chart, in months. */
  const RoiPeriods: seq<nat> := [3, 6, 12, 24]

  /** `roiData`. */
  function RoiData(monthlyProfit: Number, investment: Number): (r: seq<Number>)
    ensures |r| == |RoiPeriods|
    ensures forall i :: 0 <= i < |r| ==> r[i] == Roi(RoiPeriods[i], monthlyProfit, investment)
  {
    seq(4, i requires 0 <= i < 4 => Roi(RoiPeriods[i], monthlyProfit, investment))
  }

  /** With nothing invested no return is finite. */
  lemma RoiOfNoInvestment(monthlyProfit: Number)
    ensures forall i :: 0 <= i < |RoiPeriods| ==> RoiData(monthlyProfit, Num(0.0))[i].NaN?
  {
  }

  // ---------------------------------------------------------------------------
  // The cost breakdown and the currency form

  datatype CostShare = CostShare(name: string, percent: nat)

  const CostBreakdown: seq<CostShare> := [
    CostShare("Raw Materials", 45), CostShare("Rent & Utilities", 15), CostShare("Staff Salaries", 20),
    CostShare("Marketing", 10), CostShare("Miscellaneous", 10)
  ]

  function TotalPercent(shares: seq<CostShare>): nat
  {
    if shares == [] then 0 else shares[0].percent + TotalPercent(shares[1..])
  }

  /** The shares make up the whole. */
  lemma CostSharesMakeWhole()
    ensures TotalPercent(CostBreakdown) == 100
  {
    assert CostBreakdown[1..][1..][1..][1..][1..] == [];
  }

  /** How `formatCurrency` writes a value: in lakhs from 100000, in thousands from 1000,
      as it is below that. */
  datatype CurrencyForm = Lakhs(lakhs: real) | Thousands(thousands: real) | Rupees(rupees: real)

  function FormatCurrency(value: real): (f: CurrencyForm)
    ensures f.Lakhs? <==> value >= 100000.0
    ensures f.Thousands? <==> 1000.0 <= value < 100000.0
    ensures f.Rupees? <==> value < 1000.0
    ensures f.Lakhs? ==> f.lakhs * 100000.0 == value && f.lakhs >= 1.0
    ensures f.Thousands? ==> f.thousands * 1000.0 == value && 1.0 <= f.thousands < 100.0
    ensures f.Rupees? ==> f.rupees == value
  {
    if value >= 100000.0 then Lakhs(value / 100000.0)
    else if value >= 1000.0 then Thousands(value / 1000.0)
    else Rupees(value)
  }
}
