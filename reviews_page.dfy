/** The patient reviews page: the department list, the rating and department
    filters, the three-key sort with its direction toggle, the analytics over
    the filtered list, and the one-vote-per-review "helpful" button. The
    component's state is a `View` value; each handler maps a view to the
    next one. */
module ReviewsPage {
  import opened Common
  import opened Ordering
  import opened Dates
  import ReviewStats
  import Sorting

  datatype Review = Review(
    id: string,
    quote: string,
    author: string,
    rating: int,
    date: string,
    department: string,
    helpfulCount: int,
    verified: Option<bool>)

  datatype SortField = ByDate | ByRating | ByHelpful
  datatype Direction = Asc | Desc

  /** The component state. */
  datatype View = View(
    reviews: seq<Review>,
    ratingFilter: Option<int>,
    departmentFilter: Option<string>,
    sortBy: SortField,
    sortDirection: Direction,
    helpfulClicked: set<string>)

  /** The state on first render: no filters, newest first, no votes cast. */
  function InitialView(reviews: seq<Review>): (v: View)
    ensures forall r :: Matches(v.ratingFilter, v.departmentFilter, r)
    ensures v.reviews == reviews && v.sortBy == ByDate && v.sortDirection == Desc && v.helpfulClicked == {}
  {
    View(reviews, None, None, ByDate, Desc, {})
  }

  function DepartmentsOf(rs: seq<Review>): (ds: seq<string>)
    ensures |ds| == |rs| && forall i :: 0 <= i < |rs| ==> ds[i] == rs[i].department
  {
    if rs == [] then [] else [rs[0].department] + DepartmentsOf(rs[1..])
  }

  /** `Array.from(new Set(reviews.map(r => r.department))).sort()`: every
      department of a review, each exactly once, in sorted order. */
  function Departments(rs: seq<Review>): (ds: seq<string>)
    ensures StrictlySorted(ds) && Distinct(ds)
    ensures forall d :: d in ds <==> exists i :: 0 <= i < |rs| && rs[i].department == d
  {
    var ds := SortDistinct(DepartmentsOf(rs));
    StrictlySortedIsDistinct(ds);
    assert forall d :: d in DepartmentsOf(rs) <==> exists i :: 0 <= i < |rs| && rs[i].department == d by {
      forall d | d in DepartmentsOf(rs) ensures exists i :: 0 <= i < |rs| && rs[i].department == d {
        var i :| 0 <= i < |rs| && DepartmentsOf(rs)[i] == d;
      }
    }
    ds
  }

  /** A review passes the filters: its rating equals a non-null rating
      filter, and its department equals a truthy department filter. */
  predicate Matches(ratingFilter: Option<int>, departmentFilter: Option<string>, r: Review)
  {
    (ratingFilter.None? || r.rating == ratingFilter.value)
    && (!Truthy(departmentFilter) || r.department == departmentFilter.value)
  }

  /** The two `filter` calls: keeps exactly the matching reviews, each as
      often as the list holds it, and alters none. */
  function Keep(rs: seq<Review>, ratingFilter: Option<int>, departmentFilter: Option<string>): (kept: seq<Review>)
    ensures forall r :: multiset(kept)[r] == if Matches(ratingFilter, departmentFilter, r) then multiset(rs)[r] else 0
  {
    if rs == [] then []
    else
      var last := rs[|rs| - 1];
      assert rs == rs[..|rs| - 1] + [last];
      Keep(rs[..|rs| - 1], ratingFilter, departmentFilter)
      + (if Matches(ratingFilter, departmentFilter, last) then [last] else [])
  }

  /** The number the comparator subtracts: the date's time value, the
      rating, or the helpful count. */
  function SortKey(field: SortField, r: Review): int
  {
    match field
    case ByDate => DateValue(r.date)
    case ByRating => r.rating
    case ByHelpful => r.helpfulCount
  }

  /** The key as the comparator ranks it: `a - b` for 'asc', `b - a` for
      'desc', so a descending sort is an ascending sort of the negated key. */
  function Rank(field: SortField, dir: Direction, r: Review): int
  {
    if dir == Asc then SortKey(field, r) else -SortKey(field, r)
  }

  /** The comparator returns a value <= 0 for `x` against `y`: `x` may stand
      before `y`. */
  predicate InOrder(field: SortField, dir: Direction, x: Review, y: Review)
  {
    Rank(field, dir, x) <= Rank(field, dir, y)
  }

  predicate Ordered(field: SortField, dir: Direction, s: seq<Review>)
  {
    forall i, j :: 0 <= i < j < |s| ==> InOrder(field, dir, s[i], s[j])
  }

  /** The comparator's meaning, spelled out: ascending or descending by the
      chosen key. */
  lemma InOrderMeans(field: SortField, dir: Direction, x: Review, y: Review)
    ensures InOrder(field, dir, x, y) <==>
      if dir == Asc then SortKey(field, x) <= SortKey(field, y) else SortKey(field, x) >= SortKey(field, y)
  {
  }

  /** `result.sort(comparator)` on the copied array. */
  method SortReviews(a: array<Review>, field: SortField, dir: Direction)
    modifies a
    ensures Ordered(field, dir, a[..])
    ensures multiset(a[..]) == multiset(old(a[..]))
  {
    Sorting.SortInPlace(a, r => Rank(field, dir, r));
  }

  /** `filteredReviews`: copy the list, apply the filters, sort by the chosen
      key and direction. The result holds exactly the matching reviews, and
      adjacent (indeed any two) results are ordered by the key. */
  method FilteredReviews(v: View) returns (result: seq<Review>)
    ensures Ordered(v.sortBy, v.sortDirection, result)
    ensures forall r :: multiset(result)[r] == if Matches(v.ratingFilter, v.departmentFilter, r) then multiset(v.reviews)[r] else 0
    ensures forall r :: r in result ==> r in v.reviews && Matches(v.ratingFilter, v.departmentFilter, r)
    ensures |result| <= |v.reviews|
  {
    var kept := Keep(v.reviews, v.ratingFilter, v.departmentFilter);
    var a := new Review[|kept|](i requires 0 <= i < |kept| => kept[i]);
    assert a[..] == kept;
    SortReviews(a, v.sortBy, v.sortDirection);
    result := a[..];
    assert forall r :: r in result ==> r in v.reviews && Matches(v.ratingFilter, v.departmentFilter, r) by {
      forall r | r in result ensures r in v.reviews && Matches(v.ratingFilter, v.departmentFilter, r) {
        assert multiset(result)[r] > 0;
      }
    }
    KeepSubMultiset(v.reviews, result, v.ratingFilter, v.departmentFilter);
  }

  lemma KeepSubMultiset(rs: seq<Review>, kept: seq<Review>, rf: Option<int>, df: Option<string>)
    requires forall r :: multiset(kept)[r] == if Matches(rf, df, r) then multiset(rs)[r] else 0
    ensures |kept| <= |rs|
  {
    var rest := multiset(rs) - multiset(kept);
    assert multiset(rs) == multiset(kept) + rest;
    assert |multiset(rs)| == |multiset(kept)| + |rest|;
  }

  function Ratings(rs: seq<Review>): (out: seq<ReviewStats.Rated>)
    ensures |out| == |rs| && forall i :: 0 <= i < |rs| ==> out[i] == ReviewStats.Rated(rs[i].rating, rs[i].date)
  {
    seq(|rs|, i requires 0 <= i < |rs| => ReviewStats.Rated(rs[i].rating, rs[i].date))
  }

  lemma RatingsAppend(p: seq<Review>, q: seq<Review>)
    ensures Ratings(p + q) == Ratings(p) + Ratings(q)
  {
  }

  /** Reordering reviews reorders their projections the same way. */
  lemma {:induction false} RatingsPermutation(a: seq<Review>, b: seq<Review>)
    requires multiset(a) == multiset(b)
    ensures multiset(Ratings(a)) == multiset(Ratings(b))
    decreases |a|
  {
    if a == [] {
      assert |multiset(b)| == 0;
    } else {
      var a', x := a[..|a| - 1], a[|a| - 1];
      assert a == a' + [x];
      assert x in multiset(b);
      var j :| 0 <= j < |b| && b[j] == x;
      var p, q := b[..j], b[j + 1..];
      assert b == p + [x] + q;
      assert multiset(p + q) == multiset(b) - multiset{x};
      RatingsPermutation(a', p + q);
      RatingsAppend(a', [x]);
      RatingsAppend(p, q);
      RatingsAppend(p + [x], q);
      RatingsAppend(p, [x]);
    }
  }

  /** The projections of the reviews that pass the filters, in list order. */
  function ShownRatings(v: View): (rated: seq<ReviewStats.Rated>)
    ensures |rated| == |Keep(v.reviews, v.ratingFilter, v.departmentFilter)|
  {
    Ratings(Keep(v.reviews, v.ratingFilter, v.departmentFilter))
  }

  /** The analytics `useMemo`: every figure is computed over the filtered
      list, not the whole one. Sorting does not change them, so they are the
      figures of the matching reviews in list order. */
  method Analytics(v: View) returns (s: ReviewStats.Summary)
    ensures s.totalReviews == |Keep(v.reviews, v.ratingFilter, v.departmentFilter)| <= |v.reviews|
    ensures s.averageRating == ReviewStats.AverageRating(ShownRatings(v))
    ensures s.fiveStarCount == ReviewStats.RatingCount(ShownRatings(v), 5) <= s.totalReviews
    ensures |s.ratingDistribution| == 5
    ensures forall j :: 0 <= j < 5 ==>
      s.ratingDistribution[j] == ReviewStats.StarRow(ReviewStats.StarLabel(5 - j), ReviewStats.RatingCount(ShownRatings(v), 5 - j))
    ensures StrictlySorted(ReviewStats.RowNames(s.reviewsOverTime))
    ensures forall m :: m in ReviewStats.RowNames(s.reviewsOverTime) <==>
      exists r :: r in v.reviews && Matches(v.ratingFilter, v.departmentFilter, r) && MonthKey(r.date) == m
    ensures forall j :: 0 <= j < |s.reviewsOverTime| ==>
      s.reviewsOverTime[j].reviews == ReviewStats.MonthCount(ShownRatings(v), s.reviewsOverTime[j].name)
    ensures ReviewStats.RowTotal(s.reviewsOverTime) == s.totalReviews
    ensures s.positiveSentimentPercentage == ReviewStats.PositivePercent(ShownRatings(v))
    ensures s.totalReviews == 0 ==> s.positiveSentimentPercentage == 0.0 && s.averageRating == 0.0
    ensures v.ratingFilter.Some? && v.ratingFilter.value != 5 ==> s.fiveStarCount == 0
  {
    var shown := FilteredReviews(v);
    var rated := Ratings(shown);
    s := ReviewStats.Summarize(rated);
    SameFiguresAsKept(v, shown);
    ShownMonths(v, shown);
    forall m ensures m in ReviewStats.RowNames(s.reviewsOverTime) <==> ReviewStats.HasMonth(rated, m) {
    }
    if v.ratingFilter.Some? && v.ratingFilter.value != 5 {
      forall i | 0 <= i < |rated| ensures rated[i].rating == v.ratingFilter.value {
        assert shown[i] in shown;
      }
      NoOtherRating(rated, v.ratingFilter.value, 5);
    }
    ReviewStats.BucketsCoverRatedReviews(rated);
    InRangeAtMostAll(rated);
  }

  /** The filtered list in any order has the figures of the matching
      reviews in list order. */
  lemma SameFiguresAsKept(v: View, shown: seq<Review>)
    requires forall r :: multiset(shown)[r] == if Matches(v.ratingFilter, v.departmentFilter, r) then multiset(v.reviews)[r] else 0
    ensures |shown| == |Keep(v.reviews, v.ratingFilter, v.departmentFilter)| <= |v.reviews|
    ensures forall k :: ReviewStats.RatingCount(Ratings(shown), k) == ReviewStats.RatingCount(ShownRatings(v), k)
    ensures ReviewStats.AverageRating(Ratings(shown)) == ReviewStats.AverageRating(ShownRatings(v))
    ensures ReviewStats.PositivePercent(Ratings(shown)) == ReviewStats.PositivePercent(ShownRatings(v))
    ensures forall m :: ReviewStats.MonthCount(Ratings(shown), m) == ReviewStats.MonthCount(ShownRatings(v), m)
  {
    var kept := Keep(v.reviews, v.ratingFilter, v.departmentFilter);
    assert multiset(shown) == multiset(kept);
    RatingsPermutation(shown, kept);
    ReviewStats.OrderFree(Ratings(shown), ShownRatings(v));
    KeepSubMultiset(v.reviews, kept, v.ratingFilter, v.departmentFilter);
  }

  /** The months of the filtered list are the months of the matching reviews. */
  lemma ShownMonths(v: View, shown: seq<Review>)
    requires forall r :: multiset(shown)[r] == if Matches(v.ratingFilter, v.departmentFilter, r) then multiset(v.reviews)[r] else 0
    ensures forall m :: ReviewStats.HasMonth(Ratings(shown), m) <==>
      exists r :: r in v.reviews && Matches(v.ratingFilter, v.departmentFilter, r) && MonthKey(r.date) == m
  {
    var rated := Ratings(shown);
    forall m ensures ReviewStats.HasMonth(rated, m) <==>
      exists r :: r in v.reviews && Matches(v.ratingFilter, v.departmentFilter, r) && MonthKey(r.date) == m
    {
      if ReviewStats.HasMonth(rated, m) {
        var i :| 0 <= i < |rated| && ReviewStats.ReviewMonth(rated[i]) == m;
        assert multiset(shown)[shown[i]] > 0;
      }
      if r :| r in v.reviews && Matches(v.ratingFilter, v.departmentFilter, r) && MonthKey(r.date) == m {
        assert multiset(shown)[r] > 0;
        var i :| 0 <= i < |shown| && shown[i] == r;
        assert ReviewStats.ReviewMonth(rated[i]) == m;
      }
    }
  }

  lemma {:induction false} NoOtherRating(rs: seq<ReviewStats.Rated>, k: int, other: int)
    requires forall i :: 0 <= i < |rs| ==> rs[i].rating == k
    requires other != k
    ensures ReviewStats.RatingCount(rs, other) == 0
  {
    if rs != [] {
      NoOtherRating(rs[..|rs| - 1], k, other);
    }
  }

  lemma {:induction false} InRangeAtMostAll(rs: seq<ReviewStats.Rated>)
    ensures ReviewStats.InRangeCount(rs) <= |rs|
  {
    if rs != [] {
      InRangeAtMostAll(rs[..|rs| - 1]);
    }
  }

  /** `prevReviews.map(...)`: the reviews with id `id` gain one helpful
      vote; every other review is kept as it is. */
  function Bump(rs: seq<Review>, id: string): (out: seq<Review>)
    ensures |out| == |rs|
    ensures forall i :: 0 <= i < |rs| ==>
      out[i] == if rs[i].id == id then rs[i].(helpfulCount := rs[i].helpfulCount + 1) else rs[i]
  {
    if rs == [] then [] else
      [if rs[0].id == id then rs[0].(helpfulCount := rs[0].helpfulCount + 1) else rs[0]] + Bump(rs[1..], id)
  }

  /** `handleHelpfulClick(id)`: a no-op once `id` has voted; otherwise bumps
      the reviews with that id and records the vote. */
  function HelpfulClick(v: View, id: string): (w: View)
    ensures w.helpfulClicked == v.helpfulClicked + {id}
    ensures w.reviews == if id in v.helpfulClicked then v.reviews else Bump(v.reviews, id)
    ensures HelpfulTotal(w.reviews) == HelpfulTotal(v.reviews) + (if id in v.helpfulClicked then 0 else IdCount(v.reviews, id))
    ensures w == v.(reviews := w.reviews, helpfulClicked := w.helpfulClicked)
  {
    if id in v.helpfulClicked then v
    else
      BumpAddsIdCount(v.reviews, id);
      v.(reviews := Bump(v.reviews, id), helpfulClicked := v.helpfulClicked + {id})
  }

  predicate UniqueIds(rs: seq<Review>)
  {
    forall i, j :: 0 <= i < j < |rs| ==> rs[i].id != rs[j].id
  }

  function HelpfulTotal(rs: seq<Review>): int
  {
    if rs == [] then 0 else rs[0].helpfulCount + HelpfulTotal(rs[1..])
  }

  function IdCount(rs: seq<Review>, id: string): nat
  {
    if rs == [] then 0 else (if rs[0].id == id then 1 else 0) + IdCount(rs[1..], id)
  }

  /** The map adds one vote per review carrying the id. */
  lemma {:induction false} BumpAddsIdCount(rs: seq<Review>, id: string)
    ensures HelpfulTotal(Bump(rs, id)) == HelpfulTotal(rs) + IdCount(rs, id)
  {
    if rs != [] {
      BumpAddsIdCount(rs[1..], id);
      assert Bump(rs, id)[1..] == Bump(rs[1..], id);
    }
  }

  /** With unique ids, a present id occurs exactly once. */
  lemma {:induction false} UniqueIdCount(rs: seq<Review>, k: nat)
    requires UniqueIds(rs) && k < |rs|
    ensures IdCount(rs, rs[k].id) == 1
  {
    if k == 0 {
      AbsentIdCount(rs[1..], rs[0].id);
    } else {
      UniqueIdCount(rs[1..], k - 1);
    }
  }

  lemma {:induction false} AbsentIdCount(rs: seq<Review>, id: string)
    requires forall i :: 0 <= i < |rs| ==> rs[i].id != id
    ensures IdCount(rs, id) == 0
  {
    if rs != [] {
      AbsentIdCount(rs[1..], id);
    }
  }

  /** A first vote on the review at index `k` (ids unique) changes exactly
      that review, by one helpful vote, records the id, and leaves filters
      and sorting alone. */
  lemma FirstVoteBumpsOne(v: View, k: nat)
    requires UniqueIds(v.reviews) && k < |v.reviews|
    requires v.reviews[k].id !in v.helpfulClicked
    ensures var w := HelpfulClick(v, v.reviews[k].id);
      && |w.reviews| == |v.reviews|
      && w.reviews[k].helpfulCount == v.reviews[k].helpfulCount + 1
      && (forall i :: 0 <= i < |v.reviews| && i != k ==> w.reviews[i] == v.reviews[i])
      && HelpfulTotal(w.reviews) == HelpfulTotal(v.reviews) + 1
      && w.helpfulClicked == v.helpfulClicked + {v.reviews[k].id}
      && w.ratingFilter == v.ratingFilter && w.departmentFilter == v.departmentFilter
      && w.sortBy == v.sortBy && w.sortDirection == v.sortDirection
  {
    BumpAddsIdCount(v.reviews, v.reviews[k].id);
    UniqueIdCount(v.reviews, k);
  }

  /** A second click on the same id changes nothing. */
  lemma RepeatVoteIsNoOp(v: View, id: string)
    ensures HelpfulClick(HelpfulClick(v, id), id) == HelpfulClick(v, id)
    ensures id in v.helpfulClicked ==> HelpfulClick(v, id) == v
  {
  }

  function ToggleSortDirection(v: View): (w: View)
    ensures w.sortDirection != v.sortDirection
    ensures w == v.(sortDirection := w.sortDirection)
  {
    v.(sortDirection := if v.sortDirection == Asc then Desc else Asc)
  }

  lemma ToggleTwiceRestores(v: View)
    ensures ToggleSortDirection(ToggleSortDirection(v)) == v
  {
  }

  /** `clearFilters`: both filters off; sort settings, votes and reviews as
      they were. */
  function ClearFilters(v: View): (w: View)
    ensures w.ratingFilter.None? && w.departmentFilter.None?
    ensures w == v.(ratingFilter := None, departmentFilter := None)
  {
    v.(ratingFilter := None, departmentFilter := None)
  }

  /** After clearing, the list shows every review. */
  lemma ClearedKeepsAll(v: View, r: Review)
    ensures Matches(ClearFilters(v).ratingFilter, ClearFilters(v).departmentFilter, r)
  {
  }

  /** The star buttons: "All" clears the rating filter, a star count sets it. */
  function SelectRating(v: View, rating: Option<int>): (w: View)
    ensures w.ratingFilter == rating
    ensures w == v.(ratingFilter := w.ratingFilter)
    ensures forall r :: rating.Some? && Matches(w.ratingFilter, w.departmentFilter, r) ==> r.rating == rating.value
  {
    v.(ratingFilter := rating)
  }

  /** The department select: `setDepartmentFilter(val || null)`, so the empty
      value clears the filter. */
  function SelectDepartment(v: View, value: string): (w: View)
    ensures w.departmentFilter.None? <==> value == ""
    ensures value != "" ==> w.departmentFilter == Some(value)
    ensures w == v.(departmentFilter := w.departmentFilter)
  {
    v.(departmentFilter := if value == "" then None else Some(value))
  }

  function SelectSortBy(v: View, field: SortField): (w: View)
    ensures w.sortBy == field
    ensures w == v.(sortBy := w.sortBy)
  {
    v.(sortBy := field)
  }
}
