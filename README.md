# NobleCare client: reviews, ledger, session and sign-in logic in Dafny

This project models the parts of the NobleCare clinic dashboard (a React
client) that compute something, and proves what they compute:

- **Patient reviews** (`ReviewsPage`, `ReviewStats`). The page keeps a list of reviews. It offers a sorted
  department list, a rating filter and a department filter, and a three-key
  sort (date, rating, helpful count) with a direction toggle. Its analytics
  cover the filtered list: average, a five-bucket histogram shown 5 stars
  first, monthly counts keyed by `date.substring(0, 7)`, and the share of
  positive (4+ star) reviews. The "helpful" vote counts once per review id.
  The dashboard runs the same analytics over all of its reviews.
- **Transaction ledger** (`Ledger`, `Dashboard`, `Finance`). One aggregation
  loop computes:
  - the balance, which is the sum of the signed amounts;
  - this month's income and expenses;
  - per-month income/expense buckets;
  - per-category expense totals.
  Around it sit the category list (the dashboard always adds 'Medical', the
  finance page does not), the type/category/date-range filter with its
  newest-first order, and the add-transaction form. The form's validator
  rejects an unparsed amount or a blank description or category. It stores
  expenses negated and prepends the new entry.
- **Session store** (`AuthStore`). A store of three fields (`isAuthenticated`, `isLoading`,
  `user`) with setters, `signIn`, `signUp`, `signOut` and `getUser`. Each
  operation takes the backend's answer as a parameter. Success updates the
  fields. An error leaves them unchanged.
- **Route guard and input gates** (`ProtectedRoute`, `LoginForm`,
  `SignUpConfirm`, `OtpVerify`, `Dialog`). The guard chooses between loading,
  a redirect to `/auth`, and the protected content. The login form stores a
  trimmed email and checks for empty credentials, then branches on the
  sign-in flow's outcome. Its name prompt is a one-shot promise settled by
  confirm or cancel. The sign-up dialog's name gate requires a non-blank
  trimmed name. The verification dialog's gate requires exactly six
  characters.

Amounts are integer cents. Dates are `YYYY-MM-DD` strings. `DateValue` reads
such a string as the number YYYYMMDD, which orders dates the way their time
values do. The current month is a month key given by the caller. String
sorting (`sort()`, `localeCompare`) is lexicographic order on characters
(`Ordering.Lt`). A JavaScript `Map` filled in a loop is modelled by a `map`
plus a sequence of its keys in insertion order. The `Set`s are modelled by
what the code reads of them: the helpful votes by a Dafny `set`, and a `Set`
that is then sorted by a list of its distinct elements (`SortDistinct`,
`Ledger.CategorySet`).

Objects whose fields the code updates in place are classes:
`AuthStore.Store`, `LoginForm.Form`, `SignUpConfirm.NameDialog` and
`OtpVerify.CodeDialog`. Each method states the complete new state. The
store's methods are specified by the pure transition `AuthStore.Apply`, and
the lemmas about whole runs are stated over `Apply`.

Loops stay loops:
- the rating histogram;
- the monthly counts;
- the ledger aggregation;
- the category set;
- the in-place sort of the filtered reviews (an insertion sort, generic over
  the ranking the comparator induces).

React component state that the code replaces wholesale is a value:
- the reviews page's `View`;
- the ledger's `Book` (transactions plus form).

In the session store an error leaves every field as it was, only
`setIsLoading` writes `isLoading`, and the initial state has
`isLoading = true`. `AuthStore.GetUserCanStoreUserWhenSignedOut` shows that
the store does not keep "no user while signed out".

## Model

| member | source | states |
|---|---|---|
| Text.Trim | src/components/login-form.tsx:103 | `trim()` returns the slice of its input left after dropping ECMAScript white space from both ends; what is left neither starts nor ends with white space |
| Text.TrimEmptyIffBlank | src/components/signup-confirm-dialog.tsx:18 | a string trims to empty exactly when it is all white space |
| Text.TrimIdempotent | src/components/signup-confirm-dialog.tsx:19 | trimming an already trimmed name changes nothing |
| Ordering.SortDistinct | src/pages/ReviewsPage.tsx:110-111 | `Array.from(new Set(xs)).sort()` is strictly increasing and has exactly the elements of `xs` |
| Ordering.SortedUnique | src/pages/ReviewsPage.tsx:172 | two strictly sorted key lists with the same keys are equal, so a chart's key order depends only on its key set |
| Dates.MonthKey | src/pages/ReviewsPage.tsx:169 | `substring(0, 7)` is the first min(7, length) characters |
| Dates.DateValue | src/pages/ReviewsPage.tsx:132-133 | an ISO date's value is a number in 0..99999999 |
| Dates.DateOrder | src/pages/ReviewsPage.tsx:132-133 | for ISO dates the value is smaller exactly when the date string sorts first, and equal exactly when the strings are equal, so comparing values is comparing dates |
| Ordering.LtAt | src/pages/ReviewsPage.tsx:110-111 | two strings that agree before position i and differ there are ordered by their characters at i |
| Buckets.BucketsPartitionTotal | src/pages/DashboardPage.tsx:145-172 | when every weighted element lands in one of distinct keys, the per-key sums add up to the total |
| Buckets.TotalAppend | src/pages/ReviewsPage.tsx:151 | a sum over two lists joined is the sum of the two sums |
| Buckets.TotalSplice | src/pages/ReviewsPage.tsx:151 | taking an element out of a list takes its weight off the sum |
| Buckets.TotalPermutation | src/pages/ReviewsPage.tsx:148-151 | two lists with the same multiset have the same sum, so sorting before summing changes nothing |
| Buckets.TotalCons | src/pages/DashboardPage.tsx:281 | a prepended element adds its weight to a sum over the list |
| Sorting.InsertNext | src/pages/ReviewsPage.tsx:129-143 | one insertion pass extends the sorted prefix by one element and keeps the array's multiset |
| Sorting.SortInPlace | src/pages/ReviewsPage.tsx:129-143 | the in-place sort leaves every pair in comparator order and the array a permutation of its old contents |
| Sorting.InsertByRank | src/pages/DashboardPage.tsx:312 | inserting into an ordered list keeps it ordered and adds exactly the element |
| Sorting.SortByRank | src/pages/FinancePage.tsx:219 | the sort returns an ordered permutation of its input |
| ReviewStats.AverageRating | src/pages/ReviewsPage.tsx:151-152 | the average is 0 for no reviews, and otherwise the number that times the count gives the rating sum |
| ReviewStats.PositiveCount | src/pages/ReviewsPage.tsx:179 | the number of positive reviews is at most the number of reviews |
| ReviewStats.PositivePercent | src/pages/ReviewsPage.tsx:180 | the percentage is in 0..100, is 0 for no reviews, and is 100 exactly when every review is positive |
| ReviewStats.AverageInRange | src/pages/ReviewsPage.tsx:150-152 | with ratings in 1..5 a non-empty list averages between 1 and 5 |
| ReviewStats.RatingSumBounds | src/pages/ReviewsPage.tsx:151 | with ratings in 1..5 the rating sum lies between n and 5n |
| ReviewStats.Histogram | src/pages/ReviewsPage.tsx:155-160 | bucket k holds the number of reviews rated k + 1 |
| ReviewStats.BucketsCoverRatedReviews | src/pages/ReviewsPage.tsx:155-160 | the five buckets add up to the number of reviews rated 1..5 |
| ReviewStats.PositiveIsTopBuckets | src/pages/ReviewsPage.tsx:179 | with ratings in 1..5 the positive reviews are the 4- and 5-star buckets |
| ReviewStats.StarChart | src/pages/ReviewsPage.tsx:161-164 | row j of the chart is "(5 - j) Star(s)" with bucket 4 - j: 5 stars first, 1 star last |
| ReviewStats.StarChartEnds | src/pages/ReviewsPage.tsx:161-164 | the first row is "5 Stars" with bucket 5, the last "1 Star" with bucket 1 |
| ReviewStats.MonthlyCounts | src/pages/ReviewsPage.tsx:166-176 | one row per distinct month key, keys strictly sorted, each row counting its month's reviews, rows adding up to the number of reviews |
| ReviewStats.CountMonths | src/pages/ReviewsPage.tsx:167-172 | after the loop the map holds, for each month key present and only those, the number of reviews of that month |
| ReviewStats.RowTotalIsSumBuckets | src/pages/ReviewsPage.tsx:173-176 | the chart's counts add up to the per-month sums over its keys |
| ReviewStats.FiguresAreTotals | src/pages/ReviewsPage.tsx:150-179 | each count, the rating sum and each month's count are sums of a weight over the reviews |
| ReviewStats.OrderFree | src/pages/ReviewsPage.tsx:148-190 | a reordered list has the same length, rating counts, rating sum, average, positive count and share, month counts and months |
| ReviewStats.Summarize | src/pages/ReviewsPage.tsx:149-190 | total, average, five-star count (bucket 5), star chart, monthly rows and positive percentage as above |
| ReviewsPage.InitialView | src/pages/ReviewsPage.tsx:102-106 | the first render filters nothing, sorts by date descending and has no votes |
| ReviewsPage.Departments | src/pages/ReviewsPage.tsx:109-112 | every review's department exactly once, sorted |
| ReviewsPage.Keep | src/pages/ReviewsPage.tsx:118-126 | the filters keep each matching review as often as the list holds it and drop every other |
| ReviewsPage.InOrderMeans | src/pages/ReviewsPage.tsx:129-143 | the comparator orders by the chosen key, non-decreasing for 'asc' and non-increasing for 'desc' |
| ReviewsPage.SortReviews | src/pages/ReviewsPage.tsx:129-143 | the sorted array is ordered by the chosen key and direction and is a permutation of the filtered one |
| ReviewsPage.FilteredReviews | src/pages/ReviewsPage.tsx:115-146 | the result is a reordering of exactly the matching reviews, ordered by key, never longer than the list, with no review added or altered |
| ReviewsPage.KeepSubMultiset | src/pages/ReviewsPage.tsx:116-126 | a sub-multiset of the reviews is no longer than they are |
| ReviewsPage.Analytics | src/pages/ReviewsPage.tsx:148-190 | every figure is that of the reviews passing the filters: total = their number (at most the list's length), average, five-star count, star chart, percentage and per-month counts over them; the month rows are sorted and are exactly the months of matching reviews and add up to the total; no five-star count under another rating filter |
| ReviewsPage.RatingsPermutation | src/pages/ReviewsPage.tsx:148-150 | reordering reviews reorders their rating/date projections the same way |
| ReviewsPage.ShownRatings | src/pages/ReviewsPage.tsx:116-126 | the projections of the matching reviews, one per matching review |
| ReviewsPage.SameFiguresAsKept | src/pages/ReviewsPage.tsx:148-190 | the sorted filtered list has the figures of the matching reviews in list order |
| ReviewsPage.ShownMonths | src/pages/ReviewsPage.tsx:166-172 | the months of the filtered list are the months of the matching reviews |
| ReviewsPage.NoOtherRating | src/pages/ReviewsPage.tsx:119-121 | when every shown review has the filtered rating, no other rating has a bucket |
| ReviewsPage.InRangeAtMostAll | src/pages/ReviewsPage.tsx:157 | reviews with a rating in 1..5 are at most all reviews |
| ReviewsPage.Bump | src/pages/ReviewsPage.tsx:217-223 | the reviews with the id gain one helpful vote; every other review is kept as it is |
| ReviewsPage.BumpAddsIdCount | src/pages/ReviewsPage.tsx:217-223 | the map adds one vote per review carrying the id |
| ReviewsPage.UniqueIdCount | src/pages/ReviewsPage.tsx:219 | with unique ids a present id occurs exactly once |
| ReviewsPage.AbsentIdCount | src/pages/ReviewsPage.tsx:219 | an id no review carries occurs zero times |
| ReviewsPage.HelpfulClick | src/pages/ReviewsPage.tsx:214-226 | the id joins the voted set; a first vote bumps the reviews with the id, adding one vote per such review to the total, a repeat vote changes no review; filters and sorting are untouched |
| ReviewsPage.FirstVoteBumpsOne | src/pages/ReviewsPage.tsx:214-226 | a first vote changes exactly that review by one vote, adds the id to the voted set, and leaves filters and sorting alone |
| ReviewsPage.RepeatVoteIsNoOp | src/pages/ReviewsPage.tsx:214-226 | a voted id changes nothing, so voting twice is voting once |
| ReviewsPage.ToggleSortDirection | src/pages/ReviewsPage.tsx:228-230 | the toggle flips the direction and changes nothing else |
| ReviewsPage.ToggleTwiceRestores | src/pages/ReviewsPage.tsx:228-230 | toggling twice restores the view |
| ReviewsPage.ClearFilters | src/pages/ReviewsPage.tsx:232-235 | both filters off; sort settings, votes and reviews untouched |
| ReviewsPage.ClearedKeepsAll | src/pages/ReviewsPage.tsx:232-235 | after clearing, every review matches |
| ReviewsPage.SelectRating | src/pages/ReviewsPage.tsx:317-327 | a chosen rating filter admits only reviews with that rating; nothing else changes |
| ReviewsPage.SelectDepartment | src/pages/ReviewsPage.tsx:334 | `val \|\| null`: the empty value clears the filter, any other value becomes the filter; nothing else changes |
| ReviewsPage.SelectSortBy | src/pages/ReviewsPage.tsx:367 | sets the sort key and nothing else |
| Ledger.BalanceIsIncomeMinusExpenses | src/pages/DashboardPage.tsx:146-171 | with expenses stored non-positive, the balance is total income minus total expenses |
| Ledger.CategoryExpensesWithinExpenses | src/pages/DashboardPage.tsx:164-171 | category expenses are non-negative and at most the expenses |
| Ledger.MonthColumnsAreBuckets | src/pages/DashboardPage.tsx:174-179 | the chart's income and expense columns are the per-month sums over its keys |
| Ledger.CategoryColumnIsBuckets | src/pages/DashboardPage.tsx:181-184 | the category chart's values are the per-category sums over its keys |
| Ledger.AddToMonth | src/pages/DashboardPage.tsx:150-165 | one step keeps the month map equal to the per-month income and expense sums of the prefix seen, one entry per month present |
| Ledger.AddToCategory | src/pages/DashboardPage.tsx:168-170 | an expense with a category adds its absolute amount to that category's entry, keeping one entry per category seen |
| Ledger.CategorySkip | src/pages/DashboardPage.tsx:168 | incomes and expenses without a category leave the category totals alone |
| Ledger.AddToScalars | src/pages/DashboardPage.tsx:146-167 | one step adds the signed amount to the balance, the absolute amount to the absolute sum, one to the count, and the amount to this month's income or expenses when the transaction falls in the current month |
| Ledger.Scan | src/pages/DashboardPage.tsx:145-172 | after the loop the scalars, month buckets and category totals are those of the whole list |
| Ledger.MonthChart | src/pages/DashboardPage.tsx:174-179 | month rows in strictly sorted key order, one per month present, with its sums; the columns add up to the list's income and expenses |
| Ledger.CategoryChart | src/pages/DashboardPage.tsx:181-184 | one row per category of an expense, no repeats, with its sum; the column adds up to the category expenses |
| Ledger.Aggregate | src/pages/DashboardPage.tsx:145-184 | balance, absolute sum, count, this month's buckets, month rows and category rows as above; the finance page's loop (src/pages/FinancePage.tsx:155-196) is the same |
| Ledger.ThisMonthIsItsRow | src/pages/DashboardPage.tsx:160-166 | this month's income and expenses equal the current month's chart row, and are zero when no transaction falls in it |
| Ledger.CategorySet | src/pages/FinancePage.tsx:157 | every non-empty category, of an income or an expense, exactly once |
| Ledger.Select | src/pages/DashboardPage.tsx:303-311 | keeps each transaction matching type, category and inclusive date bounds ('all' and an absent bound impose nothing) as often as the ledger holds it |
| Ledger.FilterTransactions | src/pages/DashboardPage.tsx:302-313 | exactly the matching transactions, newest date first; the finance page's filter (src/pages/FinancePage.tsx:210-220) is the same |
| Ledger.UnfilteredShowsAll | src/pages/DashboardPage.tsx:304-305 | with no filter set, every transaction is shown |
| Ledger.Accepts | src/pages/DashboardPage.tsx:267 | the validator accepts exactly a parsed amount with a description and a category that are not all white space; the finance page's test (src/pages/FinancePage.tsx:227) is the same |
| Ledger.Entry | src/pages/DashboardPage.tsx:272-279 | the new entry has the trimmed description and category, the form's type and date, and the signed amount |
| Ledger.Prepend | src/pages/DashboardPage.tsx:281-286 | the entry goes in front, the old list follows unchanged, the form is reset |
| Ledger.PrependAdds | src/pages/DashboardPage.tsx:281 | prepending adds the entry's weight to every sum over the ledger |
| Ledger.AcceptedEntryHasCategory | src/pages/DashboardPage.tsx:267 | an accepted entry has a non-empty category and a description that is not blank |
| Dashboard.FinancialFigures | src/pages/DashboardPage.tsx:122-212 | balance is the sum of signed amounts, count the list's length, average the mean absolute amount (0 when empty), net the difference of this month's figures; month rows sorted, one per month present, each with its income and expense sums; category rows distinct, one per expense category, each with its sum, the column adding up to the category expenses; under the sign convention balance = income column - expense column |
| Dashboard.RatedOf | src/pages/DashboardPage.tsx:223-230 | the analytics read each review's rating and date |
| Dashboard.ReviewFigures | src/pages/DashboardPage.tsx:215-260 | the review figures over all reviews, as on the reviews page: the month rows are sorted, exactly the months of the reviews, each with its month's count; percentage 0 with no reviews |
| Dashboard.AllCategories | src/pages/DashboardPage.tsx:289-300 | sorted, no repeats, every category of a transaction, and always 'Medical' |
| Dashboard.SignedAmount | src/pages/DashboardPage.tsx:275 | an expense is stored negated, an income as entered |
| Dashboard.HandleAddTransaction | src/pages/DashboardPage.tsx:263-287 | a rejected form (no number, blank description or category) leaves ledger and form unchanged; an accepted one prepends the signed entry before the unchanged old list and resets the form |
| Dashboard.AddKeepsSignConvention | src/pages/DashboardPage.tsx:275-281 | adding a non-negative amount keeps expenses non-positive and moves the balance by the signed amount |
| Dashboard.NegativeExpenseIsStoredPositive | src/pages/DashboardPage.tsx:589 | the amount input has no minimum: a negative amount entered as an expense is stored as a positive expense, raising the balance while the expense charts grow, so the balance drifts from income minus expenses |
| Finance.Summarize | src/pages/FinancePage.tsx:136-207 | balance, this month's figures, net savings = income - expenses, sorted month rows each with its sums, category rows distinct and each with its sum, and `allCategories` sorted and equal to the categories present, with no 'Medical' default |
| Finance.SignedAmount | src/pages/FinancePage.tsx:235 | an income is stored as entered, an expense negated |
| Finance.HandleAddTransaction | src/pages/FinancePage.tsx:223-249 | rejection leaves everything unchanged; acceptance prepends the signed entry and resets the form |
| Finance.SameAddAsDashboard | src/pages/FinancePage.tsx:235 | the two pages' handlers produce the same ledger and form on every input although they write the sign test the other way round |
| AuthStore.Apply | src/store/authStore.ts:22-63 | each setter writes its own field only; a backend error leaves the session unchanged; sign-in and sign-up sign in with the returned user; sign-out clears user and flag; getUser sets only the user |
| AuthStore.OnlySetIsLoadingTouchesLoading | src/store/authStore.ts:23-63 | no operation but `setIsLoading` changes `isLoading` |
| AuthStore.LoadingUnchangedWithoutSetter | src/store/authStore.ts:23-63 | a run without `setIsLoading` ends with the `isLoading` it started with |
| AuthStore.FailuresChangeNothing | src/store/authStore.ts:31-58 | any run of failed backend calls leaves the session as it was |
| AuthStore.GetUserKeepsAuthentication | src/store/authStore.ts:56-63 | `getUser` never changes `isAuthenticated` |
| AuthStore.SignOutUndoesSignIn | src/store/authStore.ts:26-54 | a successful sign-out after a successful sign-in or sign-up leaves no session and no user |
| AuthStore.SessionOpsKeepNoUserWhenSignedOut | src/store/authStore.ts:26-54 | sign-in, sign-up and sign-out keep "no user while signed out" |
| AuthStore.GetUserCanStoreUserWhenSignedOut | src/store/authStore.ts:56-63 | `getUser` can store a user in a signed-out session |
| AuthStore.Store.constructor | src/store/authStore.ts:18-20 | not authenticated, loading, no user |
| AuthStore.Store.SetIsAuthenticated | src/store/authStore.ts:22 | writes `isAuthenticated` only |
| AuthStore.Store.SetIsLoading | src/store/authStore.ts:23 | writes `isLoading` only |
| AuthStore.Store.SetUser | src/store/authStore.ts:24 | writes `user` only |
| AuthStore.Store.SignIn | src/store/authStore.ts:26-35 | on success signed in with the returned user, on error unchanged; returns the error message |
| AuthStore.Store.SignUp | src/store/authStore.ts:37-46 | on success signed in with the returned user, on error unchanged; returns the error message |
| AuthStore.Store.SignOut | src/store/authStore.ts:48-54 | on success signed out with no user, on error unchanged; returns the error message |
| AuthStore.Store.GetUser | src/store/authStore.ts:56-63 | on success only the user is replaced, on error unchanged; returns the backend's user and error |
| ProtectedRoute.Guard | src/routes/ProtectedRoute.tsx:6-17 | loading exactly while loading; redirect to '/auth' with replace exactly when loaded and signed out; children or outlet exactly when loaded and signed in |
| ProtectedRoute.ContentIffSignedIn | src/routes/ProtectedRoute.tsx:9-17 | protected content renders if and only if signed in and not loading |
| ProtectedRoute.LoadingUntilSetIsLoading | src/routes/ProtectedRoute.tsx:9-11 | from the store's initial state the guard shows loading until `setIsLoading` is called, whatever else happens |
| LoginForm.ThrownMessage | src/components/login-form.tsx:71 | an `Error`'s message, otherwise the fixed fallback text |
| LoginForm.BlankEmailIsMissing | src/components/login-form.tsx:53 | since the email is stored trimmed, a white-space-only email counts as missing |
| LoginForm.Form.constructor | src/components/login-form.tsx:13-15 | empty fields, dialog closed, no handlers, no prompt |
| LoginForm.Form.SetEmail | src/components/login-form.tsx:103 | stores the trimmed input, empty exactly for blank input; nothing else changes |
| LoginForm.Form.SetPassword | src/components/login-form.tsx:120 | stores the password as typed; nothing else changes |
| LoginForm.Form.PromptForName | src/components/login-form.tsx:19-40 | opens the dialog, installs the handlers, and leaves a pending prompt |
| LoginForm.Form.DialogShown | src/components/login-form.tsx:131-132 | the dialog renders only while it is open and a prompt has installed its handlers |
| LoginForm.Form.ConfirmName | src/components/login-form.tsx:24-27 | closes the dialog and settles a pending prompt with the name; a settled prompt stays as it was |
| LoginForm.Form.CancelName | src/components/login-form.tsx:29-32 | closes the dialog and settles a pending prompt with null; a settled prompt stays as it was |
| LoginForm.Form.HandleSubmit | src/components/login-form.tsx:49-76 | resets first and only once; without credentials it sets and shows the required-fields error and never runs the flow; otherwise it runs the flow, navigates to '/' exactly when the flow returns with a falsy store error, shows a truthy error, and on a throw logs, stores and shows the thrown message and nothing else |
| Dialog.CancelCalls | src/components/signup-confirm-dialog.tsx:23-43 | the Cancel button and closing the dialog call `onCancel` once; opening calls nothing; the verification dialog (src/components/otp-dialog.tsx:27-51) wires the same two paths |
| SignUpConfirm.NameDialog.constructor | src/components/signup-confirm-dialog.tsx:15 | the name starts empty |
| SignUpConfirm.NameDialog.SetName | src/components/signup-confirm-dialog.tsx:37 | stores the name as typed |
| SignUpConfirm.NameDialog.HandleConfirm | src/components/signup-confirm-dialog.tsx:17-20 | passes on the trimmed name exactly when the name is not blank, which is exactly when Sign Up is enabled |
| OtpVerify.Capped | src/components/otp-dialog.tsx:35 | the input keeps the first min(6, length) characters |
| OtpVerify.FullCodeIffSixTyped | src/components/otp-dialog.tsx:35 | the code is full exactly when at least six characters were typed |
| OtpVerify.CodeDialog.constructor | src/components/otp-dialog.tsx:19 | the code starts empty and within the cap |
| OtpVerify.CodeDialog.SetOtp | src/components/otp-dialog.tsx:35 | stores the capped input, keeping the code at most six characters |
| OtpVerify.CodeDialog.HandleVerify | src/components/otp-dialog.tsx:21-24 | passes on the code exactly when it has six characters, which is exactly when Verify is enabled; with the cap held, a disabled Verify means fewer than six characters |

## Left out

- Sorting.SortInPlace: proves that the result is ordered and a permutation, not that the sort is stable. `Array.prototype.sort` is stable, so the model may order reviews with equal keys differently.
- Sorting.SortByRank: proves that the result is ordered and a permutation, not that it is stable, as for `SortInPlace`.
- Ledger.Aggregate: states which categories the category chart holds and their totals, not that its rows come in order of first appearance (the `Map`'s insertion order).
- Ledger.CategorySet: the finance page adds categories to its `Set` inside the aggregation loop. The model computes the same set in a separate pass.
- Dashboard.AddKeepsSignConvention: holds only for amounts that are not negative. The amount inputs (src/pages/DashboardPage.tsx:589, src/pages/FinancePage.tsx:411) set no minimum, so a negative expense is stored positive (`Dashboard.NegativeExpenseIsStoredPositive`).
- Ledger.BalanceIsIncomeMinusExpenses: holds only under that sign convention, which the pages do not enforce. After a negative expense the balance and the income-minus-expenses figure differ.
- Finance.SameAddAsDashboard: states that the two handlers produce the same ledger and form, not the same side effects. On rejection the finance page calls `alert` (src/pages/FinancePage.tsx:228) and the dashboard calls `console.error` (src/pages/DashboardPage.tsx:268).
- Dashboard.HandleAddTransaction and Finance.HandleAddTransaction: the rejection feedback (`console.error` on the dashboard, `alert` on the finance page) is user-interface output and is not modelled; a rejection is modelled as leaving the book unchanged.
- Number parsing: `parseFloat` is not modelled. The add-transaction handlers take its result as an optional integer number of cents, where none stands for `NaN`.
- Floating point: amounts are integer cents. Averages and percentages are exact rationals. `toFixed`, `Intl.NumberFormat` and the dashboard's insight text (src/pages/DashboardPage.tsx:189-199) are formatting and are left out.
- Clock and time zones: the current month is a parameter. A transaction's month key is the first seven characters of its date. Transaction ids (`Date.now()`) and the reset date (`new Date()`) are parameters. The form's date is already formatted as 'yyyy-MM-dd'.
- Date values: `DateValue` gives 0 for a string that is not `YYYY-MM-DD`, where JavaScript gives `NaN`. It reads any eight digits in that shape, so "2024-13-45" gets 20241345 where JavaScript gives `NaN`: under an end-only date bound the model keeps such a row and JavaScript drops it. The filter's calendar bounds are taken as YYYYMMDD values. The offset between UTC midnight (`new Date('YYYY-MM-DD')`) and the local midnight of a picked day is not modelled.
- String order: `sort()` compares UTF-16 code units, and lexicographic order on characters agrees with it on the BMP characters the keys hold. `localeCompare` is locale-aware and differs from character order in general ("a" sorts before "B", and punctuation collates differently); it agrees only on the same-shaped `YYYY-MM` month keys it sorts at src/pages/FinancePage.tsx:185.
- The finance page's Gemini AI call, its prompt and the simulated 800 ms load (src/pages/FinancePage.tsx:24-27, :60-133) are left out as network and timer code.
- AuthStore: the Supabase calls are not modelled. Each operation receives the backend's answer (user and error message) as a parameter, so the email and password it forwards are not modelled either.
- LoginForm: `reset`, `setError`, `error` and `signInOrSignUpFlow` are not defined in the store this model covers. `HandleSubmit` records the calls it makes and takes the flow's outcome as a parameter. How the flow uses `promptForName` is not modelled.
- LoginForm: the inputs disabled while `isLoading` and the dialog's message text are presentation and are left out.
- OtpVerify.Capped: the input library (`input-otp`) is not part of this model. The cap assumes it keeps the first six characters of longer input.
- src/context/AuthContext.tsx, src/App.tsx, src/components/nav-user.tsx, the static pages (messages, patients, staff, appointments), the layouts, the routes table and all JSX, chart and styling code are not part of this model.
