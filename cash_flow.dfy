/** The cash-flow widget of the dashboard: the income and expense totals of the loaded
    transactions, the balance and its colour, the recent list, and the add-transaction
    form with its check and reset. */
module CashFlow {
  import opened Common

  datatype TransactionType = Income | Expense

  datatype Transaction = Transaction(
    id: string,
    date: string,
    transactionType: TransactionType,
    amount: real,
    category: string,
    description: string)

  function AmountOf(t: Transaction): real { t.amount }

  predicate IsIncome(t: Transaction) { t.transactionType == Income }

  predicate IsExpense(t: Transaction) { t.transactionType == Expense }

  /** `totalIncome`: the amounts of the income transactions only. */
  function TotalIncome(ts: seq<Transaction>): real
  {
    SumOf(Filter(ts, IsIncome), AmountOf)
  }

  /** `totalExpenses`: the amounts of the expense transactions only. */
  function TotalExpenses(ts: seq<Transaction>): real
  {
    SumOf(Filter(ts, IsExpense), AmountOf)
  }

  function Balance(ts: seq<Transaction>): real
  {
    TotalIncome(ts) - TotalExpenses(ts)
  }

  /** Each transaction counted with its sign: income added, expense taken away. */
  function SignedTotal(ts: seq<Transaction>): real
  {
    if ts == [] then 0.0
    else (if IsIncome(ts[0]) then ts[0].amount else -ts[0].amount) + SignedTotal(ts[1..])
  }

  /** The balance is the signed total of the transactions. */
  lemma {:induction false} BalanceIsSignedTotal(ts: seq<Transaction>)
    ensures Balance(ts) == SignedTotal(ts)
  {
    if ts != [] {
      BalanceIsSignedTotal(ts[1..]);
      var t := ts[0];
      var rest := ts[1..];
      assert ts == [t] + rest;
      FilterCons(t, rest, IsIncome);
      FilterCons(t, rest, IsExpense);
      if IsIncome(t) {
        SumOfCons(t, Filter(rest, IsIncome), AmountOf);
        assert Filter(ts, IsExpense) == Filter(rest, IsExpense);
      } else {
        SumOfCons(t, Filter(rest, IsExpense), AmountOf);
        assert Filter(ts, IsIncome) == Filter(rest, IsIncome);
      }
    }
  }

  /** Every transaction is income or expense, so the two totals add up to the total of
      all amounts. */
  lemma TotalsCoverAll(ts: seq<Transaction>)
    ensures TotalIncome(ts) + TotalExpenses(ts) == SumOf(ts, AmountOf)
  {
    SumOfSplit(ts, AmountOf, IsIncome, IsExpense);
  }

  /** With no negative amounts each total is at most the total of all amounts. */
  lemma TotalsBounded(ts: seq<Transaction>)
    requires forall k :: 0 <= k < |ts| ==> ts[k].amount >= 0.0
    ensures 0.0 <= TotalIncome(ts) <= SumOf(ts, AmountOf)
    ensures 0.0 <= TotalExpenses(ts) <= SumOf(ts, AmountOf)
  {
    SumOfFilterAtMost(ts, AmountOf, IsIncome);
    SumOfFilterAtMost(ts, AmountOf, IsExpense);
  }

  /** The balance shows in green exactly when it is not negative. */
  predicate BalanceShowsPositive(ts: seq<Transaction>)
  {
    Balance(ts) >= 0.0
  }

  /** Without expenses and with no negative amount, the balance is green. */
  lemma NoExpensesIsPositive(ts: seq<Transaction>)
    requires forall k :: 0 <= k < |ts| ==> IsIncome(ts[k]) && ts[k].amount >= 0.0
    ensures BalanceShowsPositive(ts)
    ensures Balance(ts) == SumOf(ts, AmountOf)
  {
    FilterAllOrNone(ts, IsExpense);
    FilterAllOrNone(ts, IsIncome);
    TotalsBounded(ts);
  }

  // ---------------------------------------------------------------------------
  // Adding a transaction

  datatype TransactionForm = TransactionForm(
    date: string,
    transactionType: TransactionType,
    amount: string,
    category: string,
    description: string)

  /** The form as it opens and after a successful add: today's date, type income. */
  function BlankForm(today: string): (f: TransactionForm)
    ensures f.date == today && f.transactionType == Income
    ensures f.amount == "" && f.category == "" && f.description == ""
  {
    TransactionForm(today, Income, "", "", "")
  }

  /** The amount and the category must both be filled in (untrimmed). */
  predicate CanAdd(form: TransactionForm)
  {
    form.amount != "" && form.category != ""
  }

  /** The row inserted: the form's fields, the user's id, and the amount as `parseFloat`
      reads the typed text. */
  datatype NewTransaction = NewTransaction(
    userId: string,
    date: string,
    transactionType: TransactionType,
    amount: Number,
    category: string,
    description: string)

  function InsertRow(userId: string, form: TransactionForm): (row: NewTransaction)
    ensures row.userId == userId && row.date == form.date && row.transactionType == form.transactionType
    ensures row.category == form.category && row.description == form.description
    ensures row.amount == ParseFloat(form.amount)
  {
    NewTransaction(userId, form.date, form.transactionType, ParseFloat(form.amount), form.category, form.description)
  }

  /** `handleAddTransaction`, given whether the insert succeeded and today's date: a form
      that fails the check sends nothing and is kept as it is; otherwise its row is sent,
      a form whose insert fails is kept, and a saved one closes the dialog and resets the
      form. */
  function HandleAdd(d: AddDialog<TransactionForm>, userId: string, insertOk: bool, today: string)
    : (r: (Option<NewTransaction>, AddDialog<TransactionForm>))
    ensures r.0.Some? <==> CanAdd(d.form)
    ensures r.0.Some? ==> r.0.value == InsertRow(userId, d.form)
    ensures !CanAdd(d.form) || !insertOk ==> r.1 == d
    ensures CanAdd(d.form) && insertOk ==> !r.1.open && r.1.form == BlankForm(today)
  {
    SubmitAdd(d, CanAdd(d.form), InsertRow(userId, d.form), insertOk, BlankForm(today))
  }
}
