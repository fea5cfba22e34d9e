/** The sales widget of the dashboard: the total of the loaded sales, this month's sales
    and their total, the recent list, and the add-sale form with its check and reset. */
module Sales {
  import opened Common

  /** A calendar date as the browser reads it; `month` is `getMonth()`, 0 for January. */
  datatype CalendarDate = CalendarDate(year: int, month: nat, day: nat)

  datatype Sale = Sale(
    id: string,
    date: CalendarDate,
    amount: real,
    productService: string,
    category: string,
    customerName: string)

  function AmountOf(s: Sale): real { s.amount }

  /** `totalRevenue`: every loaded sale. */
  function TotalRevenue(sales: seq<Sale>): real
  {
    SumOf(sales, AmountOf)
  }

  /** A sale's month is the current one; the year is not compared. */
  predicate InMonthOf(today: CalendarDate, s: Sale)
  {
    s.date.month == today.month
  }

  /** `thisMonthSales`. */
  function ThisMonthSales(sales: seq<Sale>, today: CalendarDate): (r: seq<Sale>)
    ensures |r| <= |sales|
    ensures forall s :: s in r <==> s in sales && s.date.month == today.month
  {
    FilterMembers(sales, s => InMonthOf(today, s));
    Filter(sales, s => InMonthOf(today, s))
  }

  /** This month's sales keep the order in which the sales were loaded. */
  lemma ThisMonthSalesAppend(a: seq<Sale>, b: seq<Sale>, today: CalendarDate)
    ensures ThisMonthSales(a + b, today) == ThisMonthSales(a, today) + ThisMonthSales(b, today)
  {
    FilterAppend(a, b, s => InMonthOf(today, s));
  }

  /** `thisMonthRevenue`: the total over this month's sales. */
  function ThisMonthRevenue(sales: seq<Sale>, today: CalendarDate): real
  {
    SumOf(ThisMonthSales(sales, today), AmountOf)
  }

  /** Only the month of today counts: any day of the same month, in any year, selects the
      same sales, so a sale from the same month of an earlier year is counted too. */
  lemma ThisMonthIgnoresYear(sales: seq<Sale>, today: CalendarDate, other: CalendarDate)
    requires other.month == today.month
    ensures ThisMonthSales(sales, today) == ThisMonthSales(sales, other)
  {
    FilterAgree(sales, s => InMonthOf(today, s), s => InMonthOf(other, s));
  }

  /** A sale of this month of any year is kept. */
  lemma EarlierYearCounts(s: Sale, today: CalendarDate)
    requires s.date.month == today.month && s.date.year < today.year
    ensures ThisMonthSales([s], today) == [s]
    ensures ThisMonthRevenue([s], today) == s.amount
  {
    FilterCons(s, [], p => InMonthOf(today, p));
    SumOfCons(s, [], AmountOf);
    assert [s] + [] == [s];
  }

  /** The total is this month's total plus the total of the other months. */
  lemma TotalSplitsByMonth(sales: seq<Sale>, today: CalendarDate)
    ensures TotalRevenue(sales) ==
            ThisMonthRevenue(sales, today) + SumOf(Filter(sales, s => !InMonthOf(today, s)), AmountOf)
  {
    SumOfSplit(sales, AmountOf, s => InMonthOf(today, s), s => !InMonthOf(today, s));
  }

  /** With no negative amounts this month's total never exceeds the total. */
  lemma ThisMonthAtMostTotal(sales: seq<Sale>, today: CalendarDate)
    requires forall k :: 0 <= k < |sales| ==> sales[k].amount >= 0.0
    ensures 0.0 <= ThisMonthRevenue(sales, today) <= TotalRevenue(sales)
  {
    SumOfFilterAtMost(sales, AmountOf, s => InMonthOf(today, s));
  }

  // ---------------------------------------------------------------------------
  // Adding a sale

  datatype SaleForm = SaleForm(date: string, amount: string, productService: string, category: string, customerName: string)

  /** The form as it opens and after a successful add: today's date, all else blank. */
  function BlankForm(today: string): (f: SaleForm)
    ensures f.date == today && f.amount == "" && f.productService == ""
    ensures f.category == "" && f.customerName == ""
  {
    SaleForm(today, "", "", "", "")
  }

  /** The amount and the product or service must be filled in (untrimmed); category and
      customer are optional. */
  predicate CanAdd(form: SaleForm)
  {
    form.amount != "" && form.productService != ""
  }

  /** The row inserted: the form's fields, the user's id, and the amount as `parseFloat`
      reads the typed text. */
  datatype NewSale = NewSale(
    userId: string,
    date: string,
    amount: Number,
    productService: string,
    category: string,
    customerName: string)

  function InsertRow(userId: string, form: SaleForm): (row: NewSale)
    ensures row.userId == userId && row.date == form.date && row.productService == form.productService
    ensures row.category == form.category && row.customerName == form.customerName
    ensures row.amount == ParseFloat(form.amount)
  {
    NewSale(userId, form.date, ParseFloat(form.amount), form.productService, form.category, form.customerName)
  }

  /** `handleAddSale`, given whether the insert succeeded and today's date: a form that
      fails the check sends nothing and is kept; otherwise its row is sent, a form whose
      insert fails is kept, and a saved one closes the dialog and resets the form. */
  function HandleAdd(d: AddDialog<SaleForm>, userId: string, insertOk: bool, today: string)
    : (r: (Option<NewSale>, AddDialog<SaleForm>))
    ensures r.0.Some? <==> CanAdd(d.form)
    ensures r.0.Some? ==> r.0.value == InsertRow(userId, d.form)
    ensures !CanAdd(d.form) || !insertOk ==> r.1 == d
    ensures CanAdd(d.form) && insertOk ==> !r.1.open && r.1.form == BlankForm(today)
  {
    SubmitAdd(d, CanAdd(d.form), InsertRow(userId, d.form), insertOk, BlankForm(today))
  }
}
