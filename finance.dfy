/** The finance page: the figures over the transaction ledger, including its
    own category list (without the dashboard's 'Medical' default), and its
    add-transaction handler. The transaction filter is
    `Ledger.FilterTransactions`. */
module Finance {
  import opened Common
  import opened Ordering
  import opened Buckets
  import opened Ledger
  import Dashboard

  /** The figures the cards, the charts and the filter select show. */
  datatype Figures = Figures(
    totalBalance: int,
    monthlyIncome: int,
    monthlyExpenses: int,
    monthlyNetSavings: int,
    incomeExpenseData: seq<MonthRow>,
    categoryExpenseData: seq<CategoryRow>,
    allCategories: seq<string>)

  /** The financial `useMemo`. The balance is the sum of the signed amounts;
      this month's figures are the current month's buckets and the net
      savings their difference; the month rows come in key order and their
      columns add up to the list's income and expenses; the category rows
      hold the expenses that have a category; `allCategories` is every
      non-empty category, of an income or an expense, once each, sorted. */
  method Summarize(txs: seq<Transaction>, currentMonth: string) returns (f: Figures)
    ensures f.totalBalance == Total(txs, Amount)
    ensures f.monthlyIncome == BucketSum(txs, TxMonth, IncomeWeight, currentMonth)
    ensures f.monthlyExpenses == BucketSum(txs, TxMonth, ExpenseWeight, currentMonth)
    ensures f.monthlyNetSavings == f.monthlyIncome - f.monthlyExpenses
    ensures StrictlySorted(MonthNames(f.incomeExpenseData))
    ensures forall m :: m in MonthNames(f.incomeExpenseData) <==> exists i :: 0 <= i < |txs| && TxMonth(txs[i]) == m
    ensures forall j :: 0 <= j < |f.incomeExpenseData| ==>
      f.incomeExpenseData[j].income == BucketSum(txs, TxMonth, IncomeWeight, f.incomeExpenseData[j].name)
      && f.incomeExpenseData[j].expenses == BucketSum(txs, TxMonth, ExpenseWeight, f.incomeExpenseData[j].name)
    ensures IncomeColumn(f.incomeExpenseData) == Total(txs, IncomeWeight)
    ensures ExpenseColumn(f.incomeExpenseData) == Total(txs, ExpenseWeight)
    ensures SignConvention(txs) ==>
      f.totalBalance == IncomeColumn(f.incomeExpenseData) - ExpenseColumn(f.incomeExpenseData)
    ensures Distinct(CategoryNames(f.categoryExpenseData))
    ensures forall c :: c in CategoryNames(f.categoryExpenseData) <==>
      exists i :: 0 <= i < |txs| && txs[i].kind == Expense && HasCategory(txs[i]) && txs[i].category.value == c
    ensures forall j :: 0 <= j < |f.categoryExpenseData| ==>
      f.categoryExpenseData[j].value == BucketSum(txs, CategoryOf, CategoryWeight, f.categoryExpenseData[j].name)
    ensures CategoryColumn(f.categoryExpenseData) == Total(txs, CategoryWeight)
    ensures StrictlySorted(f.allCategories) && Distinct(f.allCategories)
    ensures forall c :: c in f.allCategories <==>
      exists i :: 0 <= i < |txs| && HasCategory(txs[i]) && txs[i].category.value == c
  {
    var agg := Aggregate(txs, currentMonth);
    var categories := CategorySet(txs);
    var sorted := SortDistinct(categories);
    StrictlySortedIsDistinct(sorted);
    f := Figures(agg.balance, agg.incomeThisMonth, agg.expensesThisMonth,
                 agg.incomeThisMonth - agg.expensesThisMonth,
                 agg.months, agg.categoryExpenses, sorted);
    if SignConvention(txs) {
      BalanceIsIncomeMinusExpenses(txs);
    }
  }

  /** `newType === 'income' ? amount : -amount`. */
  function SignedAmount(kind: TxType, x: int): (amount: int)
    ensures kind == Income ==> amount == x
    ensures kind == Expense ==> amount == -x
  {
    if kind == Income then x else -x
  }

  /** `handleAddTransaction`: a rejected form leaves ledger and form as they
      are; an accepted one puts the new entry in front of the unchanged old
      list and resets the form. */
  function HandleAddTransaction(b: Book, parsed: Option<int>, id: string, today: string): (r: Book)
    ensures !Accepts(b.form, parsed) ==> r == b
    ensures Accepts(b.form, parsed) ==>
      && |r.transactions| == |b.transactions| + 1
      && r.transactions[1..] == b.transactions
      && r.transactions[0] == Entry(b.form, id, SignedAmount(b.form.kind, parsed.value))
      && r.form == EmptyForm(today)
  {
    if !Accepts(b.form, parsed) then b
    else Prepend(b, Entry(b.form, id, SignedAmount(b.form.kind, parsed.value)), today)
  }

  /** The two pages write the sign the other way round but store the same
      amount, so their handlers agree on every input. */
  lemma SameAddAsDashboard(b: Book, parsed: Option<int>, id: string, today: string)
    ensures HandleAddTransaction(b, parsed, id, today) == Dashboard.HandleAddTransaction(b, parsed, id, today)
  {
    if Accepts(b.form, parsed) {
      assert SignedAmount(b.form.kind, parsed.value) == Dashboard.SignedAmount(b.form.kind, parsed.value);
    }
  }
}
