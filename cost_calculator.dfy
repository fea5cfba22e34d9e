/** The cost calculator: projected expenses derived from a plan, the actual amounts the
    owner enters, custom expense lines, the totals with variance and margin, the
    over-budget analysis, and the copy kept in browser storage. */
module CostCalculator {
  import opened Common
  import opened Business

  datatype ExpenseItem = ExpenseItem(id: string, name: string, projected: Number, actual: Number)

  // ---------------------------------------------------------------------------
  // parseAmount

  /** `parseAmount`: the first run of digits and commas, without its commas, read as a
      decimal integer; 0 when there is no such run. */
  function ParseAmount(s: string): (r: Number)
    ensures FirstRun(s, IsDigitOrComma).None? ==> r == Num(0.0)
    ensures FirstRun(s, IsDigitOrComma).Some? ==>
              var run := FirstRun(s, IsDigitOrComma).value;
              (r.NaN? <==> forall k :: 0 <= k < |run| ==> run[k] == ',')
    ensures r.Num? ==> r.v >= 0.0 && r.v == r.v.Floor as real
  {
    match FirstRun(s, IsDigitOrComma)
    case None => Num(0.0)
    case Some(run) => ParseDigits(StripCommas(run))
  }

  /** A number written out in decimal parses back to itself. */
  lemma ParseAmountOfNat(n: nat)
    ensures ParseAmount(NatToString(n)) == Num(n as real)
  {
    var s := NatToString(n);
    FirstRunAfterPrefix([], s, [], IsDigitOrComma);
    assert [] + s + [] == s;
    assert StripCommas(s) == s;
    DecimalOfNatToString(n);
  }

  /** Text before the amount and after it is ignored and the commas inside it are
      dropped. */
  lemma ParseAmountSkipsText(pre: string, run: string, rest: string)
    requires forall k :: 0 <= k < |pre| ==> !IsDigitOrComma(pre[k])
    requires |run| > 0 && forall k :: 0 <= k < |run| ==> IsDigitOrComma(run[k])
    requires rest == [] || !IsDigitOrComma(rest[0])
    ensures ParseAmount(pre + run + rest) == ParseDigits(StripCommas(run))
  {
    FirstRunAfterPrefix(pre, run, rest, IsDigitOrComma);
  }

  /** So a rent estimate "\U{20B9}8,000 - \U{20B9}15,000/month" reads as 8000. */
  lemma ParseAmountOfRange()
    ensures ParseAmount("\U{20B9}" + "8,000" + " - \U{20B9}15,000/month") == Num(8000.0)
  {
    ParseAmountSkipsText("\U{20B9}", "8,000", " - \U{20B9}15,000/month");
    EightThousand();
  }

  lemma EightThousand()
    ensures StripCommas("8,000") == "8000" && AllDigits("8000") && DecimalValue("8000") == 8000
  {
    assert "8,000" == ['8'] + ",000" && ",000" == [','] + "000";
    assert StripCommas("000") == "000";
    assert "8000" == ['8'] + "000";
    LeadingDigitThenZeros("8000", 8);
  }

  /** A run made only of commas reads as NaN. */
  lemma ParseAmountOfCommas()
    ensures ParseAmount("\U{20B9}" + ",," + " only") == NaN
  {
    ParseAmountSkipsText("\U{20B9}", ",,", " only");
  }

  // ---------------------------------------------------------------------------
  // The initial expense list

  /** `plan.location?.rentEstimate || "10000"`. */
  function RentText(plan: BusinessPlan): (t: string)
    ensures plan.location.Some? && plan.location.value.rentEstimate != "" ==> t == plan.location.value.rentEstimate
    ensures plan.location.None? || plan.location.value.rentEstimate == "" ==> t == "10000"
  {
    OrElse(if plan.location.Some? then plan.location.value.rentEstimate else "", "10000")
  }

  /** `plan.rawMaterials?.[0]?.estimatedCost || "20000"`. */
  function MaterialsText(plan: BusinessPlan): (t: string)
    ensures plan.rawMaterials.Some? && |plan.rawMaterials.value| > 0 && plan.rawMaterials.value[0].estimatedCost != "" ==>
              t == plan.rawMaterials.value[0].estimatedCost
    ensures plan.rawMaterials.None? || |plan.rawMaterials.value| == 0 || plan.rawMaterials.value[0].estimatedCost == "" ==>
              t == "20000"
  {
    OrElse(if plan.rawMaterials.Some? && |plan.rawMaterials.value| > 0 then plan.rawMaterials.value[0].estimatedCost else "",
           "20000")
  }

  /** The salary reduce: `sum + parseAmount(w.estimatedSalary) * w.count`, left to right from 0. */
  function SalarySum(ws: seq<WorkforceRequirement>): (r: Number)
    ensures ws == [] ==> r == Num(0.0)
  {
    if ws == [] then Num(0.0)
    else SalarySum(ws[..|ws| - 1]).Plus(ParseAmount(ws[|ws| - 1].estimatedSalary).Times(Num(ws[|ws| - 1].count as real)))
  }

  /** The sum is NaN exactly when some salary reads as NaN. */
  lemma {:induction false} SalarySumNaN(ws: seq<WorkforceRequirement>)
    ensures SalarySum(ws).NaN? <==> exists i :: 0 <= i < |ws| && ParseAmount(ws[i].estimatedSalary).NaN?
  {
    if ws != [] {
      var init := ws[..|ws| - 1];
      SalarySumNaN(init);
      if SalarySum(ws).NaN? {
        if SalarySum(init).NaN? {
          var i :| 0 <= i < |init| && ParseAmount(init[i].estimatedSalary).NaN?;
          assert ws[i] == init[i];
        }
      } else {
        forall i | 0 <= i < |ws| ensures !ParseAmount(ws[i].estimatedSalary).NaN? {
          if i < |init| {
            assert ws[i] == init[i];
          }
        }
      }
    }
  }

  /** `plan.workforce?.reduce(...) || 15000`: a missing workforce, a zero sum and a NaN sum
      all give 15000. */
  function StaffProjection(plan: BusinessPlan): (r: Number)
    ensures r.Num?
    ensures plan.workforce.None? ==> r == Num(15000.0)
    ensures plan.workforce.Some? && SalarySum(plan.workforce.value).Truthy() ==> r == SalarySum(plan.workforce.value)
    ensures plan.workforce.Some? && !SalarySum(plan.workforce.value).Truthy() ==> r == Num(15000.0)
  {
    if plan.workforce.None? then Num(15000.0) else SalarySum(plan.workforce.value).Or(Num(15000.0))
  }

  /** The ids of the six initial lines. */
  const RentId: string := "rent"
  const MaterialsId: string := "materials"
  const StaffId: string := "staff"
  const UtilitiesId: string := "utilities"
  const MarketingId: string := "marketing"
  const MiscId: string := "misc"

  /** Their names as the card shows them. */
  const InitialNames: seq<string> := ["Rent", "Raw Materials", "Staff Salaries", "Utilities", "Marketing", "Miscellaneous"]

  /** The six initial lines with the given rent, materials and staff projections, then
      the fixed utilities, marketing and miscellaneous estimates, none with an actual
      amount yet. */
  function InitialLines(rent: Number, materials: Number, staff: Number): (es: seq<ExpenseItem>)
    ensures |es| == 6
    ensures es[0].id == RentId && es[1].id == MaterialsId && es[2].id == StaffId
    ensures es[3].id == UtilitiesId && es[4].id == MarketingId && es[5].id == MiscId
    ensures forall i :: 0 <= i < 6 ==> es[i].actual == Num(0.0)
    ensures es[0].projected == rent && es[1].projected == materials && es[2].projected == staff
    ensures es[3].projected == Num(5000.0) && es[4].projected == Num(3000.0) && es[5].projected == Num(2000.0)
  {
    [ExpenseItem(RentId, InitialNames[0], rent, Num(0.0)),
     ExpenseItem(MaterialsId, InitialNames[1], materials, Num(0.0)),
     ExpenseItem(StaffId, InitialNames[2], staff, Num(0.0)),
     ExpenseItem(UtilitiesId, InitialNames[3], Num(5000.0), Num(0.0)),
     ExpenseItem(MarketingId, InitialNames[4], Num(3000.0), Num(0.0)),
     ExpenseItem(MiscId, InitialNames[5], Num(2000.0), Num(0.0))]
  }

  /** The initial list of a plan: the rent and materials estimates read by `parseAmount`,
      and the staff projection. */
  function InitialExpenses(plan: BusinessPlan): (es: seq<ExpenseItem>)
    ensures |es| == 6 && forall i :: 0 <= i < 6 ==> es[i].actual == Num(0.0)
    ensures es[0].projected == ParseAmount(RentText(plan))
    ensures es[1].projected == ParseAmount(MaterialsText(plan))
    ensures es[2].projected == StaffProjection(plan)
  {
    InitialLines(ParseAmount(RentText(plan)), ParseAmount(MaterialsText(plan)), StaffProjection(plan))
  }

  /** The fallback texts read as the amounts they spell. */
  lemma ParseAmountOfDefaults()
    ensures ParseAmount("10000") == Num(10000.0) && ParseAmount("20000") == Num(20000.0)
  {
    LeadingDigitThenZeros("10000", 1);
    LeadingDigitThenZeros("20000", 2);
    WholeAmount("10000");
    WholeAmount("20000");
  }

  /** A digit followed by three or four zeros is worth that digit times 1000 or 10000. */
  lemma LeadingDigitThenZeros(s: string, d: nat)
    requires d <= 9 && (s == [DigitChar(d), '0', '0', '0'] || s == [DigitChar(d), '0', '0', '0', '0'])
    ensures AllDigits(s) && DecimalValue(s) == d * (if |s| == 4 then 1000 else 10000)
  {
    var c := DigitChar(d);
    assert DigitValue('0') == 0;
    assert [c] + [] == [c] && [c][..0] == [];
    assert DecimalValue([c]) == d;
    assert [c, '0'][..1] == [c];
    assert DecimalValue([c, '0']) == d * 10;
    assert [c, '0', '0'][..2] == [c, '0'];
    assert DecimalValue([c, '0', '0']) == d * 100;
    assert [c, '0', '0', '0'][..3] == [c, '0', '0'];
    assert DecimalValue([c, '0', '0', '0']) == d * 1000;
    if |s| == 5 {
      assert s[..4] == [c, '0', '0', '0'];
    }
  }

  /** A non-empty string of digits reads as its decimal value. */
  lemma WholeAmount(s: string)
    requires |s| > 0 && AllDigits(s)
    ensures ParseAmount(s) == Num(DecimalValue(s) as real)
  {
    ParseAmountSkipsText([], s, []);
    assert [] + s + [] == s;
  }

  /** A plan without location, materials or workforce details gets the defaults
      10000, 20000 and 15000. */
  lemma InitialDefaults(plan: BusinessPlan)
    requires plan.location.None? && plan.rawMaterials.None? && plan.workforce.None?
    ensures InitialExpenses(plan)[0].projected == Num(10000.0)
    ensures InitialExpenses(plan)[1].projected == Num(20000.0)
    ensures InitialExpenses(plan)[2].projected == Num(15000.0)
  {
    ParseAmountOfDefaults();
  }

  /** The initial ids are distinct, so each edit by id reaches exactly one initial line. */
  lemma InitialIdsDistinct(plan: BusinessPlan)
    ensures forall i, j :: 0 <= i < j < |InitialExpenses(plan)| ==> InitialExpenses(plan)[i].id != InitialExpenses(plan)[j].id
  {
    InitialLinesIdsDistinct(ParseAmount(RentText(plan)), ParseAmount(MaterialsText(plan)), StaffProjection(plan));
  }

  lemma InitialLinesIdsDistinct(rent: Number, materials: Number, staff: Number)
    ensures var es := InitialLines(rent, materials, staff);
            forall i, j :: 0 <= i < j < |es| ==> es[i].id != es[j].id
  {
    var es := InitialLines(rent, materials, staff);
    var ids := [RentId, MaterialsId, StaffId, UtilitiesId, MarketingId, MiscId];
    assert forall i :: 0 <= i < 6 ==> es[i].id == ids[i];
    ThirdLettersDiffer(ids);
  }

  /** The third letters n, t, a, i, r, s tell the six ids apart. */
  lemma ThirdLettersDiffer(ids: seq<string>)
    requires ids == [RentId, MaterialsId, StaffId, UtilitiesId, MarketingId, MiscId]
    ensures forall i, j :: 0 <= i < j < |ids| ==> ids[i] != ids[j]
  {
    var third := ['n', 't', 'a', 'i', 'r', 's'];
    forall i | 0 <= i < 6 ensures |ids[i]| > 2 && ids[i][2] == third[i] {
    }
  }

  // ---------------------------------------------------------------------------
  // Edits of the expense list

  /** `prev.map(e => e.id === id ? { ...e, actual: value } : e)`. */
  function SetActual(es: seq<ExpenseItem>, id: string, value: Number): (r: seq<ExpenseItem>)
    ensures |r| == |es|
    ensures forall i :: 0 <= i < |es| ==>
              r[i] == (if es[i].id == id then es[i].(actual := value) else es[i])
  {
    if es == [] then [] else [if es[0].id == id then es[0].(actual := value) else es[0]] + SetActual(es[1..], id, value)
  }

  /** The projected-amount input's update, the same map over the `projected` field. */
  function SetProjected(es: seq<ExpenseItem>, id: string, value: Number): (r: seq<ExpenseItem>)
    ensures |r| == |es|
    ensures forall i :: 0 <= i < |es| ==>
              r[i] == (if es[i].id == id then es[i].(projected := value) else es[i])
  {
    if es == [] then [] else [if es[0].id == id then es[0].(projected := value) else es[0]] + SetProjected(es[1..], id, value)
  }

  /** `prev.filter(e => e.id !== id)`. */
  function WithoutId(es: seq<ExpenseItem>, id: string): (r: seq<ExpenseItem>)
    ensures |r| <= |es|
    ensures forall e :: e in r <==> e in es && e.id != id
  {
    if es == [] then [] else (if es[0].id == id then [] else [es[0]]) + WithoutId(es[1..], id)
  }

  /** Removal keeps the order of what remains: it distributes over concatenation, and a
      list without the id is left as it is. */
  lemma {:induction false} WithoutIdAppend(a: seq<ExpenseItem>, b: seq<ExpenseItem>, id: string)
    ensures WithoutId(a + b, id) == WithoutId(a, id) + WithoutId(b, id)
  {
    if a == [] {
      assert a + b == b;
    } else {
      assert (a + b)[1..] == a[1..] + b;
      WithoutIdAppend(a[1..], b, id);
    }
  }

  lemma {:induction false} WithoutAbsentId(es: seq<ExpenseItem>, id: string)
    requires forall i :: 0 <= i < |es| ==> es[i].id != id
    ensures WithoutId(es, id) == es
  {
    if es != [] {
      WithoutAbsentId(es[1..], id);
    }
  }

  /** Only custom lines carry a remove button. */
  predicate ShowsRemoveButton(e: ExpenseItem)
  {
    |e.id| >= 7 && e.id[..7] == "custom-"
  }

  // ---------------------------------------------------------------------------
  // Totals and the analysis

  function TotalProjected(es: seq<ExpenseItem>): (r: Number)
  {
    if es == [] then Num(0.0) else TotalProjected(es[..|es| - 1]).Plus(es[|es| - 1].projected)
  }

  function TotalActual(es: seq<ExpenseItem>): (r: Number)
  {
    if es == [] then Num(0.0) else TotalActual(es[..|es| - 1]).Plus(es[|es| - 1].actual)
  }

  function Projections(es: seq<ExpenseItem>): (xs: seq<real>)
    requires forall i :: 0 <= i < |es| ==> es[i].projected.Num?
    ensures |xs| == |es|
    ensures forall i :: 0 <= i < |es| ==> xs[i] == es[i].projected.v
  {
    if es == [] then [] else Projections(es[..|es| - 1]) + [es[|es| - 1].projected.v]
  }

  function Actuals(es: seq<ExpenseItem>): (xs: seq<real>)
    requires forall i :: 0 <= i < |es| ==> es[i].actual.Num?
    ensures |xs| == |es|
    ensures forall i :: 0 <= i < |es| ==> xs[i] == es[i].actual.v
  {
    if es == [] then [] else Actuals(es[..|es| - 1]) + [es[|es| - 1].actual.v]
  }

  /** The projected total is NaN exactly when one line's projection is. */
  lemma {:induction false} TotalProjectedNaN(es: seq<ExpenseItem>)
    ensures TotalProjected(es).NaN? <==> exists i :: 0 <= i < |es| && es[i].projected.NaN?
  {
    if es != [] {
      var init := es[..|es| - 1];
      TotalProjectedNaN(init);
      if TotalProjected(es).NaN? {
        if TotalProjected(init).NaN? {
          var i :| 0 <= i < |init| && init[i].projected.NaN?;
          assert es[i] == init[i];
        }
      } else {
        forall i | 0 <= i < |es| ensures !es[i].projected.NaN? {
          if i < |init| {
            assert es[i] == init[i];
          }
        }
      }
    }
  }

  /** Without a NaN line the projected total is the plain sum of the amounts. */
  lemma {:induction false} TotalProjectedSum(es: seq<ExpenseItem>)
    requires forall i :: 0 <= i < |es| ==> es[i].projected.Num?
    ensures TotalProjected(es) == Num(SumReals(Projections(es)))
  {
    if es != [] {
      var init := es[..|es| - 1];
      assert forall i :: 0 <= i < |init| ==> init[i] == es[i];
      TotalProjectedSum(init);
      assert Projections(es)[..|es| - 1] == Projections(init);
    }
  }

  /** The actual total is NaN exactly when one line's actual amount is. */
  lemma {:induction false} TotalActualNaN(es: seq<ExpenseItem>)
    ensures TotalActual(es).NaN? <==> exists i :: 0 <= i < |es| && es[i].actual.NaN?
  {
    if es != [] {
      var init := es[..|es| - 1];
      TotalActualNaN(init);
      if TotalActual(es).NaN? {
        if TotalActual(init).NaN? {
          var i :| 0 <= i < |init| && init[i].actual.NaN?;
          assert es[i] == init[i];
        }
      } else {
        forall i | 0 <= i < |es| ensures !es[i].actual.NaN? {
          if i < |init| {
            assert es[i] == init[i];
          }
        }
      }
    }
  }

  /** Without a NaN line the actual total is the plain sum of the amounts. */
  lemma {:induction false} TotalActualSum(es: seq<ExpenseItem>)
    requires forall i :: 0 <= i < |es| ==> es[i].actual.Num?
    ensures TotalActual(es) == Num(SumReals(Actuals(es)))
  {
    if es != [] {
      var init := es[..|es| - 1];
      assert forall i :: 0 <= i < |init| ==> init[i] == es[i];
      TotalActualSum(init);
      assert Actuals(es)[..|es| - 1] == Actuals(init);
    }
  }

  function Variance(es: seq<ExpenseItem>): (r: Number)
    ensures r.Num? <==> TotalActual(es).Num? && TotalProjected(es).Num?
    ensures r.Num? ==> r == Num(TotalActual(es).v - TotalProjected(es).v)
  {
    TotalActual(es).Minus(TotalProjected(es))
  }

  /** `totalProjected > 0 ? (variance / totalProjected) * 100 : 0`. */
  function VariancePercent(es: seq<ExpenseItem>): (r: Number)
    ensures !TotalProjected(es).Above(Num(0.0)) ==> r == Num(0.0)
    ensures TotalProjected(es).Above(Num(0.0)) && Variance(es).Num? ==>
              r.Num? && r.v * TotalProjected(es).v == Variance(es).v * 100.0
  {
    var tp := TotalProjected(es);
    if tp.Above(Num(0.0)) then Variance(es).Over(tp).Times(Num(100.0)) else Num(0.0)
  }

  function Profit(revenue: Number, es: seq<ExpenseItem>): (r: Number)
    ensures r.Num? <==> revenue.Num? && TotalActual(es).Num?
    ensures r.Num? ==> r == Num(revenue.v - TotalActual(es).v)
  {
    revenue.Minus(TotalActual(es))
  }

  /** `monthlyRevenue > 0 ? (profit / monthlyRevenue) * 100 : 0`. */
  function ProfitMargin(revenue: Number, es: seq<ExpenseItem>): (r: Number)
    ensures !revenue.Above(Num(0.0)) ==> r == Num(0.0)
    ensures revenue.Above(Num(0.0)) && TotalActual(es).Num? ==>
              r.Num? && r.v * revenue.v == (revenue.v - TotalActual(es).v) * 100.0
  {
    if revenue.Above(Num(0.0)) then Profit(revenue, es).Over(revenue).Times(Num(100.0)) else Num(0.0)
  }

  /** The analysis card shows once some actual cost is entered. */
  predicate ShowsAnalysis(es: seq<ExpenseItem>)
  {
    TotalActual(es).Above(Num(0.0))
  }

  /** `variance > totalProjected * 0.1`. */
  predicate OverBudget(es: seq<ExpenseItem>)
  {
    Variance(es).Above(TotalProjected(es).Times(Num(0.1)))
  }

  /** With finite totals the warning means: actual costs exceed the projection by more
      than a tenth of it. */
  lemma OverBudgetMeans(es: seq<ExpenseItem>)
    requires TotalActual(es).Num? && TotalProjected(es).Num?
    ensures OverBudget(es) <==> TotalActual(es).v > 1.1 * TotalProjected(es).v
  {
  }

  /** A NaN amount anywhere switches both the analysis and the warning off. */
  lemma NaNSilencesWarning(es: seq<ExpenseItem>, i: nat)
    requires i < |es| && es[i].actual.NaN?
    ensures !ShowsAnalysis(es) && !OverBudget(es)
  {
    TotalActualNaN(es);
  }

  /** The per-line bar: shown when the projection is positive, at `min(actual/projected*100, 150)`. */
  function ProgressValue(e: ExpenseItem): (r: Option<Number>)
    ensures r.Some? <==> e.projected.Above(Num(0.0))
    ensures r.Some? && r.value.Num? ==> r.value.v <= 150.0
    ensures r.Some? && e.actual.Num? ==>
              r.value.Num? && r.value.v == (if e.actual.v / e.projected.v * 100.0 <= 150.0
                                            then e.actual.v / e.projected.v * 100.0 else 150.0)
  {
    if e.projected.Above(Num(0.0)) then Some(e.actual.Over(e.projected).Times(Num(100.0)).Min(Num(150.0))) else None
  }

  /** The line the advice names: more than 20% over its projection. */
  predicate FarOver(e: ExpenseItem)
  {
    e.actual.Above(e.projected.Times(Num(1.2)))
  }

  /** `expenses.find(e => e.actual > e.projected * 1.2)?.name || 'high-cost items'`. */
  function ReviewSuggestion(es: seq<ExpenseItem>): (r: string)
    ensures r != ""
    ensures (forall i :: 0 <= i < |es| ==> !FarOver(es[i])) ==> r == "high-cost items"
  {
    if es == [] then "high-cost items"
    else if FarOver(es[0]) then OrElse(es[0].name, "high-cost items")
    else ReviewSuggestion(es[1..])
  }

  /** The advice names the first line more than 20% over its projection, or falls back
      when that line's name is empty. */
  lemma {:induction false} ReviewSuggestionNamesFirst(es: seq<ExpenseItem>, i: nat)
    requires i < |es| && FarOver(es[i])
    requires forall j :: 0 <= j < i ==> !FarOver(es[j])
    ensures ReviewSuggestion(es) == OrElse(es[i].name, "high-cost items")
  {
    if i > 0 {
      assert !FarOver(es[0]);
      assert forall j :: 0 <= j < i - 1 ==> es[1..][j] == es[j + 1];
      ReviewSuggestionNamesFirst(es[1..], i - 1);
    }
  }

  // ---------------------------------------------------------------------------
  // Storage and the component

  /** The stored record `{ expenses, revenue }`; an absent field is `None`. */
  datatype SavedCosts = SavedCosts(expenses: Option<seq<ExpenseItem>>, revenue: Option<Number>)

  function StorageKey(plan: BusinessPlan): string
  {
    "costs-" + plan.idea.id
  }

  /** The save effect: the record is written only while the list is non-empty. */
  function Persist(storage: map<string, SavedCosts>, key: string, es: seq<ExpenseItem>, revenue: Number): (r: map<string, SavedCosts>)
    ensures |es| > 0 ==> r == storage[key := SavedCosts(Some(es), Some(revenue))]
    ensures |es| == 0 ==> r == storage
  {
    if |es| > 0 then storage[key := SavedCosts(Some(es), Some(revenue))] else storage
  }

  /** `parsed.revenue || 0`. */
  function LoadedRevenue(saved: SavedCosts): (r: Number)
    ensures r.Num?
    ensures saved.revenue.Some? && saved.revenue.value.Truthy() ==> r == saved.revenue.value
    ensures saved.revenue.None? || !saved.revenue.value.Truthy() ==> r == Num(0.0)
  {
    if saved.revenue.Some? then saved.revenue.value.Or(Num(0.0)) else Num(0.0)
  }

  /** `parsed.expenses || initialExpenses`: a stored list, even an empty one, wins. */
  function LoadedExpenses(saved: SavedCosts, plan: BusinessPlan): (es: seq<ExpenseItem>)
    ensures saved.expenses.Some? ==> es == saved.expenses.value
    ensures saved.expenses.None? ==> es == InitialExpenses(plan)
  {
    if saved.expenses.Some? then saved.expenses.value else InitialExpenses(plan)
  }

  class CostSheet {
    const plan: BusinessPlan
    var expenses: seq<ExpenseItem>
    var monthlyRevenue: Number
    var newExpenseName: string
    var storage: map<string, SavedCosts>

    /** The storage mirrors the sheet whenever the sheet has lines. */
    ghost predicate Valid()
      reads this
    {
      |expenses| > 0 ==>
        StorageKey(plan) in storage && storage[StorageKey(plan)] == SavedCosts(Some(expenses), Some(monthlyRevenue))
    }

    /** Mounting: a stored record is preferred; either way the save effect then runs. */
    constructor Mount(plan: BusinessPlan, storage: map<string, SavedCosts>)
      ensures this.plan == plan && newExpenseName == ""
      ensures StorageKey(plan) in storage ==>
                expenses == LoadedExpenses(storage[StorageKey(plan)], plan) &&
                monthlyRevenue == LoadedRevenue(storage[StorageKey(plan)])
      ensures StorageKey(plan) !in storage ==> expenses == InitialExpenses(plan) && monthlyRevenue == Num(0.0)
      ensures this.storage == Persist(storage, StorageKey(plan), expenses, monthlyRevenue)
      ensures Valid()
    {
      this.plan := plan;
      var key := StorageKey(plan);
      var es, rev;
      if key in storage {
        es := LoadedExpenses(storage[key], plan);
        rev := LoadedRevenue(storage[key]);
      } else {
        es := InitialExpenses(plan);
        rev := Num(0.0);
      }
      expenses := es;
      monthlyRevenue := rev;
      newExpenseName := "";
      this.storage := Persist(storage, key, es, rev);
    }

    method UpdateActual(id: string, value: Number)
      requires Valid()
      modifies this
      ensures expenses == SetActual(old(expenses), id, value)
      ensures monthlyRevenue == old(monthlyRevenue) && newExpenseName == old(newExpenseName)
      ensures storage == Persist(old(storage), StorageKey(plan), expenses, monthlyRevenue)
      ensures Valid()
    {
      expenses := SetActual(expenses, id, value);
      storage := Persist(storage, StorageKey(plan), expenses, monthlyRevenue);
    }

    method UpdateProjected(id: string, value: Number)
      requires Valid()
      modifies this
      ensures expenses == SetProjected(old(expenses), id, value)
      ensures monthlyRevenue == old(monthlyRevenue) && newExpenseName == old(newExpenseName)
      ensures storage == Persist(old(storage), StorageKey(plan), expenses, monthlyRevenue)
      ensures Valid()
    {
      expenses := SetProjected(expenses, id, value);
      storage := Persist(storage, StorageKey(plan), expenses, monthlyRevenue);
    }

    method SetRevenue(value: Number)
      requires Valid()
      modifies this
      ensures monthlyRevenue == value
      ensures expenses == old(expenses) && newExpenseName == old(newExpenseName)
      ensures storage == Persist(old(storage), StorageKey(plan), expenses, monthlyRevenue)
      ensures Valid()
    {
      monthlyRevenue := value;
      storage := Persist(storage, StorageKey(plan), expenses, monthlyRevenue);
    }

    method SetNewExpenseName(name: string)
      modifies this
      ensures newExpenseName == name
      ensures expenses == old(expenses) && monthlyRevenue == old(monthlyRevenue) && storage == old(storage)
    {
      newExpenseName := name;
    }

    /** A name that trims to nothing changes nothing; otherwise one zeroed custom line with
        the trimmed name and the id "custom-<now>" is appended and the input cleared. */
    method AddExpense(now: nat)
      requires Valid()
      modifies this
      ensures Trim(old(newExpenseName)) == "" ==>
                expenses == old(expenses) && newExpenseName == old(newExpenseName) && storage == old(storage)
      ensures Trim(old(newExpenseName)) != "" ==>
                expenses == old(expenses) + [ExpenseItem("custom-" + NatToString(now), Trim(old(newExpenseName)), Num(0.0), Num(0.0))] &&
                newExpenseName == "" &&
                storage == Persist(old(storage), StorageKey(plan), expenses, monthlyRevenue)
      ensures monthlyRevenue == old(monthlyRevenue)
      ensures Valid()
    {
      var name := Trim(newExpenseName);
      if name == "" {
        return;
      }
      expenses := expenses + [ExpenseItem("custom-" + NatToString(now), name, Num(0.0), Num(0.0))];
      newExpenseName := "";
      storage := Persist(storage, StorageKey(plan), expenses, monthlyRevenue);
    }

    /** Removing the last line leaves the stored copy as it was, since the save effect
        skips an empty list. */
    method RemoveExpense(id: string)
      requires Valid()
      modifies this
      ensures expenses == WithoutId(old(expenses), id)
      ensures monthlyRevenue == old(monthlyRevenue) && newExpenseName == old(newExpenseName)
      ensures storage == Persist(old(storage), StorageKey(plan), expenses, monthlyRevenue)
      ensures Valid()
    {
      expenses := WithoutId(expenses, id);
      storage := Persist(storage, StorageKey(plan), expenses, monthlyRevenue);
    }

    /** "Reset All Data": the stored record is removed and the page reloads, which mounts
        the sheet afresh from the plan. */
    method Reset()
      modifies this
      ensures expenses == InitialExpenses(plan) && monthlyRevenue == Num(0.0) && newExpenseName == ""
      ensures storage == (old(storage) - {StorageKey(plan)})[StorageKey(plan) := SavedCosts(Some(expenses), Some(monthlyRevenue))]
      ensures Valid()
    {
      var key := StorageKey(plan);
      storage := storage - {key};
      expenses := InitialExpenses(plan);
      monthlyRevenue := Num(0.0);
      newExpenseName := "";
      storage := Persist(storage, key, expenses, monthlyRevenue);
    }
  }
}
