/** The dashboard page: the financial figures over the transaction ledger,
    the review figures over the patient reviews, the category list for the
    filter (which always offers 'Medical'), and the add-transaction
    handler. The transaction filter is `Ledger.FilterTransactions`. */
module Dashboard {
  import opened Common
  import opened Ordering
  import opened Buckets
  import opened Dates
  import opened Ledger
  import opened Text
  import ReviewStats

  /** The financial figures the cards and charts show. */
  datatype Figures = Figures(
    totalBalance: int,
    monthlyIncome: int,
    monthlyExpenses: int,
    monthlyNetSavings: int,
    totalTransactionsCount: nat,
    averageTransactionAmount: real,
    incomeExpenseData: seq<MonthRow>,
    categoryExpenseData: seq<CategoryRow>)

  /** The financial `useMemo`: the balance is the sum of the signed amounts,
      the count is the number of transactions, the average is the mean
      absolute amount (0 for an empty ledger), this month's figures are the
      current month's buckets and the net is their difference; the charts
      are the month rows in key order and the category rows, whose columns
      add up to the list's income, expenses and category expenses. */
  method FinancialFigures(txs: seq<Transaction>, currentMonth: string) returns (f: Figures)
    ensures f.totalBalance == Total(txs, Amount)
    ensures f.totalTransactionsCount == |txs|
    ensures f.averageTransactionAmount == if |txs| > 0 then Total(txs, AbsAmount) as real / |txs| as real else 0.0
    ensures f.monthlyIncome == BucketSum(txs, TxMonth, IncomeWeight, currentMonth)
    ensures f.monthlyExpenses == BucketSum(txs, TxMonth, ExpenseWeight, currentMonth)
    ensures f.monthlyNetSavings == f.monthlyIncome - f.monthlyExpenses
    ensures StrictlySorted(MonthNames(f.incomeExpenseData))
    ensures forall m :: m in MonthNames(f.incomeExpenseData) <==> exists i :: 0 <= i < |txs| && TxMonth(txs[i]) == m
    ensures forall j :: 0 <= j < |f.incomeExpenseData| ==>
      f.incomeExpenseData[j].income == BucketSum(txs, TxMonth, IncomeWeight, f.incomeExpenseData[j].name)
      && f.incomeExpenseData[j].expenses == BucketSum(txs, TxMonth, ExpenseWeight, f.incomeExpenseData[j].name)
    ensures IncomeColumn(f.incomeExpenseData) == Total(txs, IncomeWeight)
    ensures ExpenseColumn(f.incomeExpenseData) == Total(txs, ExpenseWeight)
    ensures SignConvention(txs) ==>
      f.totalBalance == IncomeColumn(f.incomeExpenseData) - ExpenseColumn(f.incomeExpenseData)
    ensures Distinct(CategoryNames(f.categoryExpenseData))
    ensures forall c :: c in CategoryNames(f.categoryExpenseData) <==>
      exists i :: 0 <= i < |txs| && txs[i].kind == Expense && HasCategory(txs[i]) && txs[i].category.value == c
    ensures forall j :: 0 <= j < |f.categoryExpenseData| ==>
      f.categoryExpenseData[j].value == BucketSum(txs, CategoryOf, CategoryWeight, f.categoryExpenseData[j].name)
    ensures CategoryColumn(f.categoryExpenseData) == Total(txs, CategoryWeight)
    ensures 0 <= CategoryColumn(f.categoryExpenseData) <= ExpenseColumn(f.incomeExpenseData)
  {
    var agg := Aggregate(txs, currentMonth);
    var average := if agg.count > 0 then agg.absoluteSum as real / agg.count as real else 0.0;
    f := Figures(agg.balance, agg.incomeThisMonth, agg.expensesThisMonth,
                 agg.incomeThisMonth - agg.expensesThisMonth, agg.count, average,
                 agg.months, agg.categoryExpenses);
    if SignConvention(txs) {
      BalanceIsIncomeMinusExpenses(txs);
    }
    CategoryExpensesWithinExpenses(txs);
  }

  datatype PatientReview = PatientReview(id: string, quote: string, author: string, rating: int, date: string)

  function RatedOf(reviews: seq<PatientReview>): (out: seq<ReviewStats.Rated>)
    ensures |out| == |reviews|
    ensures forall i :: 0 <= i < |reviews| ==> out[i] == ReviewStats.Rated(reviews[i].rating, reviews[i].date)
  {
    seq(|reviews|, i requires 0 <= i < |reviews| => ReviewStats.Rated(reviews[i].rating, reviews[i].date))
  }

  /** The reviews `useMemo`: the same analytics as the reviews page, over
      all reviews. */
  method ReviewFigures(reviews: seq<PatientReview>) returns (s: ReviewStats.Summary)
    ensures s.totalReviews == |reviews|
    ensures s.averageRating == ReviewStats.AverageRating(RatedOf(reviews))
    ensures s.fiveStarCount == ReviewStats.RatingCount(RatedOf(reviews), 5)
    ensures |s.ratingDistribution| == 5
    ensures forall j :: 0 <= j < 5 ==>
      s.ratingDistribution[j] == ReviewStats.StarRow(ReviewStats.StarLabel(5 - j), ReviewStats.RatingCount(RatedOf(reviews), 5 - j))
    ensures StrictlySorted(ReviewStats.RowNames(s.reviewsOverTime))
    ensures forall m :: m in ReviewStats.RowNames(s.reviewsOverTime) <==>
      exists i :: 0 <= i < |reviews| && MonthKey(reviews[i].date) == m
    ensures forall j :: 0 <= j < |s.reviewsOverTime| ==>
      s.reviewsOverTime[j].reviews == ReviewStats.MonthCount(RatedOf(reviews), s.reviewsOverTime[j].name)
    ensures ReviewStats.RowTotal(s.reviewsOverTime) == |reviews|
    ensures s.positiveSentimentPercentage == ReviewStats.PositivePercent(RatedOf(reviews))
    ensures |reviews| == 0 ==> s.positiveSentimentPercentage == 0.0
  {
    var rated := RatedOf(reviews);
    s := ReviewStats.Summarize(rated);
    forall m ensures m in ReviewStats.RowNames(s.reviewsOverTime) <==>
      exists i :: 0 <= i < |reviews| && MonthKey(reviews[i].date) == m
    {
      if m in ReviewStats.RowNames(s.reviewsOverTime) {
        var i :| 0 <= i < |rated| && ReviewStats.ReviewMonth(rated[i]) == m;
        assert MonthKey(reviews[i].date) == m;
      }
      if i :| 0 <= i < |reviews| && MonthKey(reviews[i].date) == m {
        assert ReviewStats.ReviewMonth(rated[i]) == m;
      }
    }
  }

  /** `allCategories`: every non-empty category of a transaction and
      'Medical', each once, sorted. */
  method AllCategories(txs: seq<Transaction>) returns (categories: seq<string>)
    ensures StrictlySorted(categories) && Distinct(categories)
    ensures "Medical" in categories
    ensures forall c :: c in categories <==>
      c == "Medical" || exists i :: 0 <= i < |txs| && HasCategory(txs[i]) && txs[i].category.value == c
  {
    var seen := CategorySet(txs);
    if "Medical" !in seen {
      seen := seen + ["Medical"];
    }
    categories := SortDistinct(seen);
    StrictlySortedIsDistinct(categories);
  }

  /** `newType === 'expense' ? -parsedAmount : parsedAmount`. */
  function SignedAmount(kind: TxType, x: int): (amount: int)
    ensures kind == Expense ==> amount == -x
    ensures kind == Income ==> amount == x
  {
    if kind == Expense then -x else x
  }

  /** `handleAddTransaction`: a rejected form leaves ledger and form as they
      are; an accepted one puts the new entry, with the signed amount and
      the trimmed description and category, in front of the unchanged old
      list, and resets the form. */
  function HandleAddTransaction(b: Book, parsed: Option<int>, id: string, today: string): (r: Book)
    ensures !Accepts(b.form, parsed) ==> r == b
    ensures Accepts(b.form, parsed) ==>
      && |r.transactions| == |b.transactions| + 1
      && r.transactions[1..] == b.transactions
      && r.transactions[0] == Entry(b.form, id, SignedAmount(b.form.kind, parsed.value))
      && r.form == EmptyForm(today)
  {
    if !Accepts(b.form, parsed) then b
    else Prepend(b, Entry(b.form, id, SignedAmount(b.form.kind, parsed.value)), today)
  }

  /** An accepted non-negative amount keeps expenses non-positive, and moves
      the balance by the signed amount. */
  lemma AddKeepsSignConvention(b: Book, parsed: Option<int>, id: string, today: string)
    requires SignConvention(b.transactions)
    requires parsed.Some? ==> parsed.value >= 0
    ensures SignConvention(HandleAddTransaction(b, parsed, id, today).transactions)
    ensures Accepts(b.form, parsed) ==>
      Total(HandleAddTransaction(b, parsed, id, today).transactions, Amount)
      == Total(b.transactions, Amount) + SignedAmount(b.form.kind, parsed.value)
  {
    var r := HandleAddTransaction(b, parsed, id, today);
    if Accepts(b.form, parsed) {
      assert r.transactions == [r.transactions[0]] + b.transactions;
      PrependAdds(b, r.transactions[0], today, Amount);
      forall i | 0 <= i < |r.transactions| && r.transactions[i].kind == Expense
        ensures r.transactions[i].amount <= 0
      {
        if i > 0 {
          assert r.transactions[i] == b.transactions[i - 1];
        }
      }
    }
  }

  /** The amount input accepts a negative number: "-50" entered as an
      expense is stored as +50, an expense with a positive amount. The
      balance counts it as money in, while the month and category charts
      count its absolute value as money out, so after such an entry the
      balance is no longer income minus expenses. */
  lemma NegativeExpenseIsStoredPositive(b: Book, x: int, id: string, today: string)
    requires b.form.kind == Expense && !Blank(b.form.description) && !Blank(b.form.category)
    requires x > 0
    ensures var r := HandleAddTransaction(b, Some(-x), id, today);
      && r.transactions[0].kind == Expense && r.transactions[0].amount == x
      && !SignConvention(r.transactions)
      && Total(r.transactions, Amount) == Total(b.transactions, Amount) + x
      && Total(r.transactions, IncomeWeight) - Total(r.transactions, ExpenseWeight)
         == Total(b.transactions, IncomeWeight) - Total(b.transactions, ExpenseWeight) - x
  {
    var t := Entry(b.form, id, SignedAmount(Expense, -x));
    assert Accepts(b.form, Some(-x));
    PrependAdds(b, t, today, Amount);
    PrependAdds(b, t, today, IncomeWeight);
    PrependAdds(b, t, today, ExpenseWeight);
  }
}
