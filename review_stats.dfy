/** The review analytics both the reviews page and the dashboard compute over
    a list of reviews: total, average rating, the five-bucket rating
    histogram (as a chart listing 5 stars first), reviews per month keyed by
    `date.substring(0, 7)`, and the share of positive (4 stars and up)
    reviews. Only a review's rating and date take part, so the analytics work
    on that projection. */
module ReviewStats {
  import opened Common
  import opened Ordering
  import opened Dates
  import opened Buckets

  /** What the analytics read of a review. */
  datatype Rated = Rated(rating: int, date: string)

  /** The number of reviews with rating `k`. */
  function RatingCount(rs: seq<Rated>, k: int): nat
  {
    if rs == [] then 0
    else RatingCount(rs[..|rs| - 1], k) + (if rs[|rs| - 1].rating == k then 1 else 0)
  }

  /** The number of reviews whose rating is one of 1..5. */
  function InRangeCount(rs: seq<Rated>): nat
  {
    if rs == [] then 0
    else InRangeCount(rs[..|rs| - 1]) + (if 1 <= rs[|rs| - 1].rating <= 5 then 1 else 0)
  }

  /** The number of positive reviews (rating 4 or more). */
  function PositiveCount(rs: seq<Rated>): (n: nat)
    ensures n <= |rs|
  {
    if rs == [] then 0
    else PositiveCount(rs[..|rs| - 1]) + (if rs[|rs| - 1].rating >= 4 then 1 else 0)
  }

  function RatingSum(rs: seq<Rated>): int
  {
    if rs == [] then 0 else RatingSum(rs[..|rs| - 1]) + rs[|rs| - 1].rating
  }

  /** `total > 0 ? sumRatings / total : 0`, exactly (the page then rounds it
      with `toFixed(1)`). */
  function AverageRating(rs: seq<Rated>): (avg: real)
    ensures |rs| == 0 ==> avg == 0.0
    ensures |rs| > 0 ==> avg * |rs| as real == RatingSum(rs) as real
  {
    if |rs| > 0 then RatingSum(rs) as real / |rs| as real else 0.0
  }

  /** `total > 0 ? (positiveReviews / total) * 100 : 0`, exactly. */
  function PositivePercent(rs: seq<Rated>): (p: real)
    ensures 0.0 <= p <= 100.0
    ensures |rs| == 0 ==> p == 0.0
    ensures p == 100.0 <==> |rs| > 0 && PositiveCount(rs) == |rs|
  {
    if |rs| > 0 then (PositiveCount(rs) as real / |rs| as real) * 100.0 else 0.0
  }

  lemma {:induction false} RatingSumBounds(rs: seq<Rated>)
    requires forall i :: 0 <= i < |rs| ==> 1 <= rs[i].rating <= 5
    ensures |rs| <= RatingSum(rs) <= 5 * |rs|
  {
    if rs != [] {
      RatingSumBounds(rs[..|rs| - 1]);
    }
  }

  /** With every rating in 1..5, a non-empty list averages between 1 and 5. */
  lemma AverageInRange(rs: seq<Rated>)
    requires |rs| > 0
    requires forall i :: 0 <= i < |rs| ==> 1 <= rs[i].rating <= 5
    ensures 1.0 <= AverageRating(rs) <= 5.0
  {
    RatingSumBounds(rs);
    QuotientBetween(RatingSum(rs) as real, |rs| as real);
  }

  /** A sum between `n` and `5n` divided by `n` lies between 1 and 5. */
  lemma QuotientBetween(s: real, n: real)
    requires n > 0.0 && n <= s <= 5.0 * n
    ensures 1.0 <= s / n <= 5.0
  {
    var q := s / n;
    assert q * n == s;
    assert (5.0 - q) * n == 5.0 * n - s;
    assert (q - 1.0) * n == s - n;
  }

  /** `Array(5).fill(0)`, then `distribution[rating - 1]++` for every
      rating in 1..5: bucket `k` holds the number of reviews rated `k + 1`. */
  method Histogram(rs: seq<Rated>) returns (dist: seq<nat>)
    ensures |dist| == 5
    ensures forall k :: 0 <= k < 5 ==> dist[k] == RatingCount(rs, k + 1)
  {
    var distribution := new nat[5](_ => 0);
    for i := 0 to |rs|
      invariant forall k :: 0 <= k < 5 ==> distribution[k] == RatingCount(rs[..i], k + 1)
    {
      assert rs[..i + 1][..i] == rs[..i];
      var rating := rs[i].rating;
      if rating >= 1 && rating <= 5 {
        distribution[rating - 1] := distribution[rating - 1] + 1;
      }
    }
    assert rs[..|rs|] == rs;
    dist := distribution[..];
  }

  /** The five buckets together count exactly the reviews rated 1..5; a
      rating outside that range is in no bucket. */
  lemma {:induction false} BucketsCoverRatedReviews(rs: seq<Rated>)
    ensures RatingCount(rs, 1) + RatingCount(rs, 2) + RatingCount(rs, 3)
            + RatingCount(rs, 4) + RatingCount(rs, 5) == InRangeCount(rs)
  {
    if rs != [] {
      BucketsCoverRatedReviews(rs[..|rs| - 1]);
    }
  }

  /** The positive reviews are those in the 4- and 5-star buckets, when every
      rating is in 1..5. */
  lemma {:induction false} PositiveIsTopBuckets(rs: seq<Rated>)
    requires forall i :: 0 <= i < |rs| ==> 1 <= rs[i].rating <= 5
    ensures PositiveCount(rs) == RatingCount(rs, 4) + RatingCount(rs, 5)
  {
    if rs != [] {
      PositiveIsTopBuckets(rs[..|rs| - 1]);
    }
  }

  datatype StarRow = StarRow(name: string, reviews: nat)

  /** `${k} Star${k === 1 ? '' : 's'}` for a star count 1..5. */
  function StarLabel(k: int): string
    requires 1 <= k <= 5
  {
    [('0' as int + k) as char] + " Star" + (if k == 1 then "" else "s")
  }

  function Reverse<T>(s: seq<T>): (r: seq<T>)
    ensures |r| == |s| && forall j :: 0 <= j < |s| ==> r[j] == s[|s| - 1 - j]
  {
    if s == [] then [] else Reverse(s[1..]) + [s[0]]
  }

  /** `distribution.map((count, index) => row).reverse()`: row `j` is the
      bucket of `5 - j` stars, so the chart lists 5 stars first and 1 star
      last. */
  function StarChart(dist: seq<nat>): (rows: seq<StarRow>)
    requires |dist| == 5
    ensures |rows| == 5
    ensures forall j :: 0 <= j < 5 ==> rows[j] == StarRow(StarLabel(5 - j), dist[4 - j])
  {
    Reverse(seq(5, i requires 0 <= i < 5 => StarRow(StarLabel(i + 1), dist[i])))
  }

  lemma StarChartEnds(dist: seq<nat>)
    requires |dist| == 5
    ensures StarChart(dist)[0] == StarRow("5 Stars", dist[4])
    ensures StarChart(dist)[4] == StarRow("1 Star", dist[0])
  {
  }

  datatype MonthRow = MonthRow(name: string, reviews: nat)

  function ReviewMonth(r: Rated): string
  {
    MonthKey(r.date)
  }

  function One(r: Rated): int
  {
    1
  }

  /** The number of reviews whose month key is `m`. */
  function MonthCount(rs: seq<Rated>, m: string): int
  {
    BucketSum(rs, ReviewMonth, One, m)
  }

  function RowNames(rows: seq<MonthRow>): (names: seq<string>)
    ensures |names| == |rows| && forall j :: 0 <= j < |rows| ==> names[j] == rows[j].name
  {
    if rows == [] then [] else [rows[0].name] + RowNames(rows[1..])
  }

  function RowTotal(rows: seq<MonthRow>): int
  {
    if rows == [] then 0 else rows[0].reviews + RowTotal(rows[1..])
  }

  lemma {:induction false} TotalOne(rs: seq<Rated>)
    ensures Total(rs, One) == |rs|
  {
    if rs != [] {
      TotalOne(rs[..|rs| - 1]);
    }
  }

  lemma {:induction false} RowTotalIsSumBuckets(rs: seq<Rated>, rows: seq<MonthRow>)
    requires forall j :: 0 <= j < |rows| ==> rows[j].reviews == MonthCount(rs, rows[j].name)
    ensures RowTotal(rows) == SumBuckets(rs, ReviewMonth, One, RowNames(rows))
  {
    if rows != [] {
      RowTotalIsSumBuckets(rs, rows[1..]);
      assert RowNames(rows)[1..] == RowNames(rows[1..]);
    }
  }

  /** The monthly counts after the first `n` reviews: one entry per month
      key seen, holding that month's count, and the keys seen. */
  ghost predicate MonthCountsSoFar(rs: seq<Rated>, n: nat, monthly: map<string, nat>, keys: seq<string>)
    requires n <= |rs|
  {
    && (forall m :: m in monthly <==> m in keys)
    && (forall m :: m in monthly <==> exists j :: 0 <= j < n && ReviewMonth(rs[j]) == m)
    && (forall m :: m in monthly ==> monthly[m] == MonthCount(rs[..n], m))
    && (forall m :: m !in monthly ==> MonthCount(rs[..n], m) == 0)
  }

  /** The `forEach` filling `monthlyReviewsMap`:
      `set(month, (get(month) || 0) + 1)` for every review. */
  method CountMonths(rs: seq<Rated>) returns (monthly: map<string, nat>, keys: seq<string>)
    ensures MonthCountsSoFar(rs, |rs|, monthly, keys)
  {
    monthly, keys := map[], [];
    for i := 0 to |rs|
      invariant MonthCountsSoFar(rs, i, monthly, keys)
    {
      monthly, keys := CountOne(rs, i, monthly, keys);
    }
  }

  /** One step of that loop: the review's month gains one. */
  method CountOne(rs: seq<Rated>, i: nat, monthly: map<string, nat>, keys: seq<string>)
    returns (monthly': map<string, nat>, keys': seq<string>)
    requires i < |rs| && MonthCountsSoFar(rs, i, monthly, keys)
    ensures MonthCountsSoFar(rs, i + 1, monthly', keys')
  {
    BucketStep(rs, ReviewMonth, One, i);
    var month := MonthKey(rs[i].date);
    var previous := if month in monthly then monthly[month] else 0;
    monthly' := monthly[month := previous + 1];
    keys' := if month in keys then keys else keys + [month];
  }

  /** The reviews-over-time chart: one row per distinct month key, in sorted
      key order, each holding the number of reviews of that month; the rows
      add up to the number of reviews. */
  method MonthlyCounts(rs: seq<Rated>) returns (rows: seq<MonthRow>)
    ensures StrictlySorted(RowNames(rows))
    ensures forall m :: m in RowNames(rows) <==> exists i :: 0 <= i < |rs| && ReviewMonth(rs[i]) == m
    ensures forall j :: 0 <= j < |rows| ==> rows[j].reviews == MonthCount(rs, rows[j].name)
    ensures RowTotal(rows) == |rs|
  {
    var monthly, keys := CountMonths(rs);
    assert rs[..|rs|] == rs;
    var sortedMonths := SortDistinct(keys);
    rows := seq(|sortedMonths|, j requires 0 <= j < |sortedMonths| => MonthRow(sortedMonths[j], monthly[sortedMonths[j]]));
    assert RowNames(rows) == sortedMonths;
    StrictlySortedIsDistinct(sortedMonths);
    RowTotalIsSumBuckets(rs, rows);
    BucketsPartitionTotal(rs, ReviewMonth, One, sortedMonths);
    TotalOne(rs);
  }

  /** The weights whose sums are the figures: one for a review of rating
      `k`, the rating itself, one for a positive review, one for a review of
      month `m`. */
  function HasRating(k: int): Rated -> int
  {
    (r: Rated) => if r.rating == k then 1 else 0
  }

  function RatingOf(r: Rated): int
  {
    r.rating
  }

  function PositiveOne(r: Rated): int
  {
    if r.rating >= 4 then 1 else 0
  }

  function InMonth(m: string): Rated -> int
  {
    (r: Rated) => if ReviewMonth(r) == m then 1 else 0
  }

  lemma {:induction false} FiguresAreTotals(rs: seq<Rated>)
    ensures forall k :: RatingCount(rs, k) == Total(rs, HasRating(k))
    ensures RatingSum(rs) == Total(rs, RatingOf)
    ensures PositiveCount(rs) == Total(rs, PositiveOne)
    ensures forall m :: MonthCount(rs, m) == Total(rs, InMonth(m))
  {
    if rs != [] {
      FiguresAreTotals(rs[..|rs| - 1]);
    }
  }

  /** Some review of `rs` falls in month `m`. */
  predicate HasMonth(rs: seq<Rated>, m: string)
  {
    exists i :: 0 <= i < |rs| && ReviewMonth(rs[i]) == m
  }

  /** The figures depend on which reviews there are, not on their order:
      a reordered list has the same counts, sum, average, share and months. */
  lemma OrderFree(a: seq<Rated>, b: seq<Rated>)
    requires multiset(a) == multiset(b)
    ensures |a| == |b|
    ensures forall k :: RatingCount(a, k) == RatingCount(b, k)
    ensures RatingSum(a) == RatingSum(b) && AverageRating(a) == AverageRating(b)
    ensures PositiveCount(a) == PositiveCount(b) && PositivePercent(a) == PositivePercent(b)
    ensures forall m :: MonthCount(a, m) == MonthCount(b, m)
    ensures forall m :: HasMonth(a, m) <==> HasMonth(b, m)
  {
    assert |a| == |multiset(a)| == |multiset(b)| == |b|;
    FiguresAreTotals(a);
    FiguresAreTotals(b);
    forall k ensures RatingCount(a, k) == RatingCount(b, k) {
      TotalPermutation(a, b, HasRating(k));
    }
    TotalPermutation(a, b, RatingOf);
    TotalPermutation(a, b, PositiveOne);
    forall m ensures MonthCount(a, m) == MonthCount(b, m) {
      TotalPermutation(a, b, InMonth(m));
    }
    forall m | HasMonth(a, m) ensures HasMonth(b, m) {
      var i :| 0 <= i < |a| && ReviewMonth(a[i]) == m;
      assert a[i] in multiset(b);
    }
    forall m | HasMonth(b, m) ensures HasMonth(a, m) {
      var i :| 0 <= i < |b| && ReviewMonth(b[i]) == m;
      assert b[i] in multiset(a);
    }
  }

  /** The figures the page shows. */
  datatype Summary = Summary(
    averageRating: real,
    totalReviews: nat,
    fiveStarCount: nat,
    ratingDistribution: seq<StarRow>,
    reviewsOverTime: seq<MonthRow>,
    positiveSentimentPercentage: real)

  method Summarize(rs: seq<Rated>) returns (s: Summary)
    ensures s.totalReviews == |rs|
    ensures s.averageRating == AverageRating(rs)
    ensures s.fiveStarCount == RatingCount(rs, 5)
    ensures |s.ratingDistribution| == 5
    ensures forall j :: 0 <= j < 5 ==> s.ratingDistribution[j] == StarRow(StarLabel(5 - j), RatingCount(rs, 5 - j))
    ensures StrictlySorted(RowNames(s.reviewsOverTime))
    ensures forall m :: m in RowNames(s.reviewsOverTime) <==> exists i :: 0 <= i < |rs| && ReviewMonth(rs[i]) == m
    ensures forall j :: 0 <= j < |s.reviewsOverTime| ==> s.reviewsOverTime[j].reviews == MonthCount(rs, s.reviewsOverTime[j].name)
    ensures RowTotal(s.reviewsOverTime) == |rs|
    ensures s.positiveSentimentPercentage == PositivePercent(rs)
  {
    var distribution := Histogram(rs);
    var overTime := MonthlyCounts(rs);
    s := Summary(AverageRating(rs), |rs|, distribution[4], StarChart(distribution), overTime, PositivePercent(rs));
  }
}
