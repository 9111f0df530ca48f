/** The transaction ledger the dashboard and the finance page both keep: the
    aggregation loop (balance, sums of absolute amounts, this month's income
    and expenses, per-month income/expense buckets, per-category expense
    totals), the set of categories, the type/category/date-range filter with
    its newest-first order, and the add-transaction form with its validator.
    Amounts are integer cents; "the current month" is a month key given by
    the caller. */
module Ledger {
  import opened Common
  import opened Ordering
  import opened Dates
  import opened Buckets
  import opened Text
  import Sorting

  datatype TxType = Income | Expense

  /** A ledger entry. `amount` is signed: an income is stored as entered, an
      expense negated by the add-transaction handler. */
  datatype Transaction = Transaction(
    id: string,
    description: string,
    amount: int,
    kind: TxType,
    category: Option<string>,
    date: string)

  function Abs(x: int): nat
  {
    if x < 0 then -x else x
  }

  /** `if (t.category)`: the category is present and not empty. */
  predicate HasCategory(t: Transaction)
  {
    Truthy(t.category)
  }

  // What each accumulator adds for one transaction.

  function Amount(t: Transaction): int
  {
    t.amount
  }

  function AbsAmount(t: Transaction): int
  {
    Abs(t.amount)
  }

  function IncomeWeight(t: Transaction): int
  {
    if t.kind == Income then t.amount else 0
  }

  function ExpenseWeight(t: Transaction): int
  {
    if t.kind == Expense then Abs(t.amount) else 0
  }

  function CategoryWeight(t: Transaction): int
  {
    if t.kind == Expense && HasCategory(t) then Abs(t.amount) else 0
  }

  /** The month bucket a transaction falls in. */
  function TxMonth(t: Transaction): string
  {
    MonthKey(t.date)
  }

  function CategoryOf(t: Transaction): string
  {
    if t.category.Some? then t.category.value else ""
  }

  /** Every expense is stored with a non-positive amount, as the
      add-transaction handler stores it for a non-negative input. */
  predicate SignConvention(txs: seq<Transaction>)
  {
    forall i :: 0 <= i < |txs| && txs[i].kind == Expense ==> txs[i].amount <= 0
  }

  /** Under the sign convention the balance is total income minus total
      expenses. */
  lemma {:induction false} BalanceIsIncomeMinusExpenses(txs: seq<Transaction>)
    requires SignConvention(txs)
    ensures Total(txs, Amount) == Total(txs, IncomeWeight) - Total(txs, ExpenseWeight)
  {
    if txs != [] {
      BalanceIsIncomeMinusExpenses(txs[..|txs| - 1]);
    }
  }

  /** Category expenses are part of the expenses. */
  lemma {:induction false} CategoryExpensesWithinExpenses(txs: seq<Transaction>)
    ensures 0 <= Total(txs, CategoryWeight) <= Total(txs, ExpenseWeight)
  {
    if txs != [] {
      CategoryExpensesWithinExpenses(txs[..|txs| - 1]);
    }
  }

  datatype MonthTotals = MonthTotals(income: int, expense: int)

  /** A row of the income/expense chart. */
  datatype MonthRow = MonthRow(name: string, income: int, expenses: int)

  /** A slice of the category chart. */
  datatype CategoryRow = CategoryRow(name: string, value: int)

  function MonthNames(rows: seq<MonthRow>): (names: seq<string>)
    ensures |names| == |rows| && forall j :: 0 <= j < |rows| ==> names[j] == rows[j].name
  {
    if rows == [] then [] else [rows[0].name] + MonthNames(rows[1..])
  }

  function CategoryNames(rows: seq<CategoryRow>): (names: seq<string>)
    ensures |names| == |rows| && forall j :: 0 <= j < |rows| ==> names[j] == rows[j].name
  {
    if rows == [] then [] else [rows[0].name] + CategoryNames(rows[1..])
  }

  function IncomeColumn(rows: seq<MonthRow>): int
  {
    if rows == [] then 0 else rows[0].income + IncomeColumn(rows[1..])
  }

  function ExpenseColumn(rows: seq<MonthRow>): int
  {
    if rows == [] then 0 else rows[0].expenses + ExpenseColumn(rows[1..])
  }

  function CategoryColumn(rows: seq<CategoryRow>): int
  {
    if rows == [] then 0 else rows[0].value + CategoryColumn(rows[1..])
  }

  lemma {:induction false} MonthColumnsAreBuckets(txs: seq<Transaction>, rows: seq<MonthRow>)
    requires forall j :: 0 <= j < |rows| ==>
      rows[j].income == BucketSum(txs, TxMonth, IncomeWeight, rows[j].name)
      && rows[j].expenses == BucketSum(txs, TxMonth, ExpenseWeight, rows[j].name)
    ensures IncomeColumn(rows) == SumBuckets(txs, TxMonth, IncomeWeight, MonthNames(rows))
    ensures ExpenseColumn(rows) == SumBuckets(txs, TxMonth, ExpenseWeight, MonthNames(rows))
  {
    if rows != [] {
      MonthColumnsAreBuckets(txs, rows[1..]);
      assert MonthNames(rows)[1..] == MonthNames(rows[1..]);
    }
  }

  lemma {:induction false} CategoryColumnIsBuckets(txs: seq<Transaction>, rows: seq<CategoryRow>)
    requires forall j :: 0 <= j < |rows| ==> rows[j].value == BucketSum(txs, CategoryOf, CategoryWeight, rows[j].name)
    ensures CategoryColumn(rows) == SumBuckets(txs, CategoryOf, CategoryWeight, CategoryNames(rows))
  {
    if rows != [] {
      CategoryColumnIsBuckets(txs, rows[1..]);
      assert CategoryNames(rows)[1..] == CategoryNames(rows[1..]);
    }
  }

  /** The month buckets after the first `n` transactions: one entry per
      month key seen, holding that month's income and expense sums, and the
      keys in order of first appearance. */
  ghost predicate MonthsSoFar(txs: seq<Transaction>, n: nat, monthly: map<string, MonthTotals>, keys: seq<string>)
    requires n <= |txs|
  {
    && (forall m :: m in monthly <==> m in keys)
    && (forall m :: m in monthly <==> exists j :: 0 <= j < n && TxMonth(txs[j]) == m)
    && (forall m :: m in monthly ==>
          monthly[m] == MonthTotals(BucketSum(txs[..n], TxMonth, IncomeWeight, m), BucketSum(txs[..n], TxMonth, ExpenseWeight, m)))
    && (forall m :: m !in monthly ==>
          BucketSum(txs[..n], TxMonth, IncomeWeight, m) == 0 && BucketSum(txs[..n], TxMonth, ExpenseWeight, m) == 0)
  }

  /** The category totals after the first `n` transactions: one entry per
      category of an expense seen, holding its expense sum, and the keys,
      without repeats, in order of first appearance. */
  ghost predicate CategoriesSoFar(txs: seq<Transaction>, n: nat, totals: map<string, int>, keys: seq<string>)
    requires n <= |txs|
  {
    && (forall c :: c in totals <==> c in keys)
    && Distinct(keys)
    && (forall c :: c in totals <==>
          exists j :: 0 <= j < n && txs[j].kind == Expense && HasCategory(txs[j]) && txs[j].category.value == c)
    && (forall c :: c in totals ==> totals[c] == BucketSum(txs[..n], CategoryOf, CategoryWeight, c))
    && (forall c :: c !in totals ==> BucketSum(txs[..n], CategoryOf, CategoryWeight, c) == 0)
  }

  /** The month part of the loop body: create the month's entry when it is
      missing, then add an income's amount to its income or an expense's
      absolute amount to its expenses. */
  method AddToMonth(txs: seq<Transaction>, i: nat, monthly: map<string, MonthTotals>, keys: seq<string>)
    returns (monthly': map<string, MonthTotals>, keys': seq<string>)
    requires i < |txs| && MonthsSoFar(txs, i, monthly, keys)
    ensures MonthsSoFar(txs, i + 1, monthly', keys')
  {
    BucketStep(txs, TxMonth, IncomeWeight, i);
    BucketStep(txs, TxMonth, ExpenseWeight, i);
    var t := txs[i];
    var monthKey := MonthKey(t.date);
    monthly', keys' := monthly, keys;
    if monthKey !in monthly' {
      monthly' := monthly'[monthKey := MonthTotals(0, 0)];
      keys' := keys' + [monthKey];
    }
    var monthData := monthly'[monthKey];
    if t.kind == Income {
      monthly' := monthly'[monthKey := monthData.(income := monthData.income + t.amount)];
    } else {
      monthly' := monthly'[monthKey := monthData.(expense := monthData.expense + Abs(t.amount))];
    }
  }

  /** `categoryExpenses.set(c, (categoryExpenses.get(c) || 0) + |amount|)`
      for an expense with a category. */
  method AddToCategory(txs: seq<Transaction>, i: nat, totals: map<string, int>, keys: seq<string>)
    returns (totals': map<string, int>, keys': seq<string>)
    requires i < |txs| && CategoriesSoFar(txs, i, totals, keys)
    requires txs[i].kind == Expense && HasCategory(txs[i])
    ensures CategoriesSoFar(txs, i + 1, totals', keys')
  {
    BucketStep(txs, CategoryOf, CategoryWeight, i);
    var c := txs[i].category.value;
    var previous := if c in totals then totals[c] else 0;
    totals' := totals[c := previous + Abs(txs[i].amount)];
    keys' := if c in keys then keys else keys + [c];
  }

  /** A transaction that is not an expense with a category leaves the
      category totals as they are. */
  lemma CategorySkip(txs: seq<Transaction>, i: nat, totals: map<string, int>, keys: seq<string>)
    requires i < |txs| && CategoriesSoFar(txs, i, totals, keys)
    requires !(txs[i].kind == Expense && HasCategory(txs[i]))
    ensures CategoriesSoFar(txs, i + 1, totals, keys)
  {
    BucketStep(txs, CategoryOf, CategoryWeight, i);
  }

  /** `Array.from(monthlyDataMap.keys()).sort().map(...)`: one row per
      month present, in sorted key order, with that month's income and
      expense sums; the columns add up to the totals over the list. */
  method MonthChart(txs: seq<Transaction>, monthly: map<string, MonthTotals>, keys: seq<string>) returns (months: seq<MonthRow>)
    requires MonthsSoFar(txs, |txs|, monthly, keys)
    ensures StrictlySorted(MonthNames(months))
    ensures forall m :: m in MonthNames(months) <==> exists i :: 0 <= i < |txs| && TxMonth(txs[i]) == m
    ensures forall j :: 0 <= j < |months| ==>
      months[j].income == BucketSum(txs, TxMonth, IncomeWeight, months[j].name)
      && months[j].expenses == BucketSum(txs, TxMonth, ExpenseWeight, months[j].name)
    ensures IncomeColumn(months) == Total(txs, IncomeWeight)
    ensures ExpenseColumn(months) == Total(txs, ExpenseWeight)
  {
    assert txs[..|txs|] == txs;
    var sortedKeys := SortDistinct(keys);
    months := seq(|sortedKeys|, j requires 0 <= j < |sortedKeys| =>
      MonthRow(sortedKeys[j], monthly[sortedKeys[j]].income, monthly[sortedKeys[j]].expense));
    assert MonthNames(months) == sortedKeys;
    StrictlySortedIsDistinct(sortedKeys);
    MonthColumnsAreBuckets(txs, months);
    BucketsPartitionTotal(txs, TxMonth, IncomeWeight, sortedKeys);
    BucketsPartitionTotal(txs, TxMonth, ExpenseWeight, sortedKeys);
  }

  /** `Array.from(categoryExpensesMap.entries()).map(...)`: one row per
      category of an expense, in order of first appearance, with its
      expense sum; the column adds up to the category expenses of the list. */
  method CategoryChart(txs: seq<Transaction>, totals: map<string, int>, keys: seq<string>) returns (rows: seq<CategoryRow>)
    requires CategoriesSoFar(txs, |txs|, totals, keys)
    ensures CategoryNames(rows) == keys && Distinct(keys)
    ensures forall c :: c in keys <==>
      exists i :: 0 <= i < |txs| && txs[i].kind == Expense && HasCategory(txs[i]) && txs[i].category.value == c
    ensures forall j :: 0 <= j < |rows| ==> rows[j].value == BucketSum(txs, CategoryOf, CategoryWeight, rows[j].name)
    ensures CategoryColumn(rows) == Total(txs, CategoryWeight)
  {
    assert txs[..|txs|] == txs;
    rows := seq(|keys|, j requires 0 <= j < |keys| => CategoryRow(keys[j], totals[keys[j]]));
    assert CategoryNames(rows) == keys;
    CategoryColumnIsBuckets(txs, rows);
    BucketsPartitionTotal(txs, CategoryOf, CategoryWeight, keys);
  }

  /** What the aggregation loop produces. */
  datatype Aggregation = Aggregation(
    balance: int,
    absoluteSum: int,
    count: nat,
    incomeThisMonth: int,
    expensesThisMonth: int,
    months: seq<MonthRow>,
    categoryExpenses: seq<CategoryRow>)

  /** The running scalars after the first `n` transactions: the signed and
      absolute sums, the count, and this month's income and expenses. */
  ghost predicate ScalarsSoFar(txs: seq<Transaction>, n: nat, currentMonth: string,
                               balance: int, absoluteSum: int, count: nat, incomeNow: int, expensesNow: int)
    requires n <= |txs|
  {
    && balance == Total(txs[..n], Amount)
    && absoluteSum == Total(txs[..n], AbsAmount)
    && count == n
    && incomeNow == BucketSum(txs[..n], TxMonth, IncomeWeight, currentMonth)
    && expensesNow == BucketSum(txs[..n], TxMonth, ExpenseWeight, currentMonth)
  }

  /** The scalar part of the loop body: `balance += amount`,
      `totalAmountSum += |amount|`, `transactionCount++`, and this month's
      income or expenses when the transaction falls in the current month. */
  method AddToScalars(txs: seq<Transaction>, i: nat, currentMonth: string,
                      balance: int, absoluteSum: int, count: nat, incomeNow: int, expensesNow: int)
    returns (balance': int, absoluteSum': int, count': nat, incomeNow': int, expensesNow': int)
    requires i < |txs| && ScalarsSoFar(txs, i, currentMonth, balance, absoluteSum, count, incomeNow, expensesNow)
    ensures ScalarsSoFar(txs, i + 1, currentMonth, balance', absoluteSum', count', incomeNow', expensesNow')
  {
    var t := txs[i];
    TotalStep(txs, Amount, i);
    TotalStep(txs, AbsAmount, i);
    BucketStep(txs, TxMonth, IncomeWeight, i);
    BucketStep(txs, TxMonth, ExpenseWeight, i);
    balance', absoluteSum', count' := balance + t.amount, absoluteSum + Abs(t.amount), count + 1;
    incomeNow', expensesNow' := incomeNow, expensesNow;
    var inCurrentMonth := MonthKey(t.date) == currentMonth;
    if t.kind == Income {
      if inCurrentMonth {
        incomeNow' := incomeNow + t.amount;
      }
    } else {
      if inCurrentMonth {
        expensesNow' := expensesNow + Abs(t.amount);
      }
    }
  }

  /** The `forEach` loop itself: after it, the scalars, the month buckets and
      the category totals cover the whole list. */
  method Scan(txs: seq<Transaction>, currentMonth: string)
    returns (balance: int, absoluteSum: int, count: nat, incomeNow: int, expensesNow: int,
             monthly: map<string, MonthTotals>, monthKeys: seq<string>,
             categoryTotals: map<string, int>, categoryKeys: seq<string>)
    ensures ScalarsSoFar(txs, |txs|, currentMonth, balance, absoluteSum, count, incomeNow, expensesNow)
    ensures MonthsSoFar(txs, |txs|, monthly, monthKeys)
    ensures CategoriesSoFar(txs, |txs|, categoryTotals, categoryKeys)
  {
    balance, absoluteSum, count, incomeNow, expensesNow := 0, 0, 0, 0, 0;
    monthly, monthKeys := map[], [];
    categoryTotals, categoryKeys := map[], [];
    for i := 0 to |txs|
      invariant ScalarsSoFar(txs, i, currentMonth, balance, absoluteSum, count, incomeNow, expensesNow)
      invariant MonthsSoFar(txs, i, monthly, monthKeys)
      invariant CategoriesSoFar(txs, i, categoryTotals, categoryKeys)
    {
      balance, absoluteSum, count, incomeNow, expensesNow :=
        AddToScalars(txs, i, currentMonth, balance, absoluteSum, count, incomeNow, expensesNow);
      monthly, monthKeys := AddToMonth(txs, i, monthly, monthKeys);
      if txs[i].kind == Expense && HasCategory(txs[i]) {
        categoryTotals, categoryKeys := AddToCategory(txs, i, categoryTotals, categoryKeys);
      } else {
        CategorySkip(txs, i, categoryTotals, categoryKeys);
      }
    }
  }

  /** The financial `useMemo` up to its chart data. Every transaction adds
      its signed amount to the balance and falls in exactly one month bucket:
      an income adds its amount to that month's income, an expense its
      absolute amount to that month's expenses and, when it has a category,
      to that category's total. The month rows come out in sorted key order,
      one per month present; the category rows one per category of an
      expense, in the order the categories first appear. The columns add up
      to the totals over the whole list. */
  method Aggregate(txs: seq<Transaction>, currentMonth: string) returns (agg: Aggregation)
    ensures agg.balance == Total(txs, Amount)
    ensures agg.absoluteSum == Total(txs, AbsAmount)
    ensures agg.count == |txs|
    ensures agg.incomeThisMonth == BucketSum(txs, TxMonth, IncomeWeight, currentMonth)
    ensures agg.expensesThisMonth == BucketSum(txs, TxMonth, ExpenseWeight, currentMonth)
    ensures StrictlySorted(MonthNames(agg.months))
    ensures forall m :: m in MonthNames(agg.months) <==> exists i :: 0 <= i < |txs| && TxMonth(txs[i]) == m
    ensures forall j :: 0 <= j < |agg.months| ==>
      agg.months[j].income == BucketSum(txs, TxMonth, IncomeWeight, agg.months[j].name)
      && agg.months[j].expenses == BucketSum(txs, TxMonth, ExpenseWeight, agg.months[j].name)
    ensures IncomeColumn(agg.months) == Total(txs, IncomeWeight)
    ensures ExpenseColumn(agg.months) == Total(txs, ExpenseWeight)
    ensures Distinct(CategoryNames(agg.categoryExpenses))
    ensures forall c :: c in CategoryNames(agg.categoryExpenses) <==>
      exists i :: 0 <= i < |txs| && txs[i].kind == Expense && HasCategory(txs[i]) && txs[i].category.value == c
    ensures forall j :: 0 <= j < |agg.categoryExpenses| ==>
      agg.categoryExpenses[j].value == BucketSum(txs, CategoryOf, CategoryWeight, agg.categoryExpenses[j].name)
    ensures CategoryColumn(agg.categoryExpenses) == Total(txs, CategoryWeight)
  {
    var balance, absoluteSum, count, incomeNow, expensesNow, monthly, monthKeys, categoryTotals, categoryKeys :=
      Scan(txs, currentMonth);
    assert txs[..|txs|] == txs;
    var months := MonthChart(txs, monthly, monthKeys);
    var categoryRows := CategoryChart(txs, categoryTotals, categoryKeys);
    agg := Aggregation(balance, absoluteSum, count, incomeNow, expensesNow, months, categoryRows);
  }

  /** This month's income and expenses are the current month's row of the
      chart, and zero when no transaction falls in the current month. */
  lemma ThisMonthIsItsRow(txs: seq<Transaction>, currentMonth: string, agg: Aggregation)
    requires agg.incomeThisMonth == BucketSum(txs, TxMonth, IncomeWeight, currentMonth)
    requires agg.expensesThisMonth == BucketSum(txs, TxMonth, ExpenseWeight, currentMonth)
    requires forall j :: 0 <= j < |agg.months| ==>
      agg.months[j].income == BucketSum(txs, TxMonth, IncomeWeight, agg.months[j].name)
      && agg.months[j].expenses == BucketSum(txs, TxMonth, ExpenseWeight, agg.months[j].name)
    ensures forall j :: 0 <= j < |agg.months| && agg.months[j].name == currentMonth ==>
      agg.months[j].income == agg.incomeThisMonth && agg.months[j].expenses == agg.expensesThisMonth
    ensures (forall i :: 0 <= i < |txs| ==> TxMonth(txs[i]) != currentMonth) ==>
      agg.incomeThisMonth == 0 && agg.expensesThisMonth == 0
  {
    if forall i :: 0 <= i < |txs| ==> TxMonth(txs[i]) != currentMonth {
      BucketAbsent(txs, TxMonth, IncomeWeight, currentMonth);
      BucketAbsent(txs, TxMonth, ExpenseWeight, currentMonth);
    }
  }

  /** The `categories` set: every non-empty category, of an income or an
      expense, once each, in the order of first appearance. */
  method CategorySet(txs: seq<Transaction>) returns (categories: seq<string>)
    ensures Distinct(categories)
    ensures forall c :: c in categories <==> exists i :: 0 <= i < |txs| && HasCategory(txs[i]) && txs[i].category.value == c
  {
    categories := [];
    for i := 0 to |txs|
      invariant Distinct(categories)
      invariant forall c :: c in categories <==> exists j :: 0 <= j < i && HasCategory(txs[j]) && txs[j].category.value == c
    {
      if HasCategory(txs[i]) && txs[i].category.value !in categories {
        categories := categories + [txs[i].category.value];
      }
    }
  }

  /** The transaction filters: the type select ('all', 'income' or
      'expense'), the category select ('all' or a category), and the optional
      start and end dates, as date values. */
  datatype Filter = Filter(kind: string, category: string, start: Option<int>, end: Option<int>)

  function KindName(k: TxType): string
  {
    if k == Income then "income" else "expense"
  }

  /** 'all' and an absent date bound impose nothing; otherwise the type must
      match, the category must be present and equal, and the date must lie
      within the bounds, both inclusive. */
  predicate Matches(f: Filter, t: Transaction)
  {
    (f.kind == "all" || KindName(t.kind) == f.kind)
    && (f.category == "all" || t.category == Some(f.category))
    && (f.start.None? || DateValue(t.date) >= f.start.value)
    && (f.end.None? || DateValue(t.date) <= f.end.value)
  }

  function Select(txs: seq<Transaction>, f: Filter): (kept: seq<Transaction>)
    ensures forall t :: multiset(kept)[t] == if Matches(f, t) then multiset(txs)[t] else 0
  {
    if txs == [] then []
    else
      var last := txs[|txs| - 1];
      assert txs == txs[..|txs| - 1] + [last];
      Select(txs[..|txs| - 1], f) + (if Matches(f, last) then [last] else [])
  }

  /** The comparator `b.date - a.date`, read as a rank: later dates first. */
  function NewestRank(t: Transaction): int
  {
    -DateValue(t.date)
  }

  predicate NewestFirst(s: seq<Transaction>)
  {
    forall i, j :: 0 <= i < j < |s| ==> DateValue(s[i].date) >= DateValue(s[j].date)
  }

  /** `filteredTransactions`: exactly the matching transactions, each as
      often as the ledger holds it, newest first. */
  function FilterTransactions(txs: seq<Transaction>, f: Filter): (r: seq<Transaction>)
    ensures NewestFirst(r)
    ensures forall t :: multiset(r)[t] == if Matches(f, t) then multiset(txs)[t] else 0
  {
    var r := Sorting.SortByRank(Select(txs, f), NewestRank);
    assert forall i, j :: 0 <= i < j < |r| ==> NewestRank(r[i]) <= NewestRank(r[j]);
    r
  }

  /** With no filter set, the list shows every transaction. */
  lemma UnfilteredShowsAll(txs: seq<Transaction>)
    ensures multiset(FilterTransactions(txs, Filter("all", "all", None, None))) == multiset(txs)
  {
    var r := FilterTransactions(txs, Filter("all", "all", None, None));
    assert forall t :: multiset(r)[t] == multiset(txs)[t];
  }

  /** The add-transaction form. `date` is the picked day, already formatted
      as 'yyyy-MM-dd'. */
  datatype Form = Form(description: string, amount: string, kind: TxType, category: string, date: string)

  /** The form after a successful add: empty fields, type 'expense', date
      today. */
  function EmptyForm(today: string): Form
  {
    Form("", "", Expense, "", today)
  }

  /** The validator: the amount parsed to a number, and neither the
      description nor the category is blank once trimmed. */
  predicate Accepts(form: Form, parsed: Option<int>)
    ensures Accepts(form, parsed) <==> parsed.Some? && !Blank(form.description) && !Blank(form.category)
  {
    TrimEmptyIffBlank(form.description);
    TrimEmptyIffBlank(form.category);
    parsed.Some? && Trim(form.description) != "" && Trim(form.category) != ""
  }

  /** The ledger with its form. */
  datatype Book = Book(transactions: seq<Transaction>, form: Form)

  /** The new transaction built from the form with the signed amount. */
  function Entry(form: Form, id: string, amount: int): (t: Transaction)
    ensures t.description == Trim(form.description) && t.category == Some(Trim(form.category))
    ensures t.kind == form.kind && t.amount == amount && t.date == form.date && t.id == id
  {
    Transaction(id, Trim(form.description), amount, form.kind, Some(Trim(form.category)), form.date)
  }

  /** `setTransactions(prev => [t, ...prev])` and the form reset. */
  function Prepend(b: Book, t: Transaction, today: string): (r: Book)
    ensures |r.transactions| == |b.transactions| + 1
    ensures r.transactions[0] == t && r.transactions[1..] == b.transactions
    ensures r.form == EmptyForm(today)
  {
    Book([t] + b.transactions, EmptyForm(today))
  }

  /** Prepending an entry adds its amount to the balance and its weight to
      each accumulator. */
  lemma PrependAdds(b: Book, t: Transaction, today: string, w: Transaction -> int)
    ensures Total(Prepend(b, t, today).transactions, w) == w(t) + Total(b.transactions, w)
  {
    TotalCons(t, b.transactions, w);
  }

  /** An accepted entry has a description and a category that are not
      blank: it counts in its category's expenses when it is an expense. */
  lemma AcceptedEntryHasCategory(form: Form, parsed: Option<int>, id: string, amount: int)
    requires Accepts(form, parsed)
    ensures HasCategory(Entry(form, id, amount))
    ensures !Blank(Entry(form, id, amount).description)
  {
    TrimEmptyIffBlank(form.description);
    TrimIdempotent(form.description);
    TrimEmptyIffBlank(Trim(form.description));
  }
}
