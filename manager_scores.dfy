/**
 * The manager's score page (src/pages/manager/ManagerScores.tsx): the
 * manager's own score rows, newest first, the three totals above them and
 * the icon and colour each row gets from its action type.
 */
module ManagerScores {
  import opened Seqs
  import opened Domain
  import Ordering

  /**
   * The page's query: `eq('manager_id', user.id)` ordered newest first, run
   * only while a user is signed in (`enabled: !!user?.id`); `None` is the
   * query that never ran.
   */
  function OwnScores(rows: seq<ManagerScore>, user: Option<Uuid>): (r: Option<seq<ManagerScore>>)
    ensures user.None? <==> r.None?
    ensures r.Some? ==> forall s :: s in r.value <==> s in rows && s.managerId == user.value
    ensures r.Some? ==> Ordering.NonIncreasing(r.value, ScoreCreatedAt)
    ensures r.Some? ==> multiset(r.value) <= multiset(rows)
  {
    if user.None? then None
    else
      var own := Filter(rows, (s: ManagerScore) => s.managerId == user.value);
      FilterSubMultiset(rows, (s: ManagerScore) => s.managerId == user.value);
      Some(Ordering.SortDesc(own, ScoreCreatedAt))
  }

  /** The sum of the `points` column, as `reduce((sum, s) => sum + s.points, 0)` adds it up. */
  function SumPoints(scores: seq<ManagerScore>): int
  {
    if scores == [] then 0 else SumPoints(scores[..|scores| - 1]) + scores[|scores| - 1].points
  }

  /** The sum over two lists of rows is the sum of their sums. */
  lemma {:induction false} SumPointsAppend(a: seq<ManagerScore>, b: seq<ManagerScore>)
    ensures SumPoints(a + b) == SumPoints(a) + SumPoints(b)
  {
    if b == [] {
      assert a + b == a;
    } else {
      assert (a + b)[..|a + b| - 1] == a + b[..|b| - 1];
      SumPointsAppend(a, b[..|b| - 1]);
    }
  }

  /** Rows with no negative points add up to no less than any one of them. */
  lemma {:induction false} SumPointsBounds(scores: seq<ManagerScore>)
    requires forall s :: s in scores ==> s.points >= 0
    ensures SumPoints(scores) >= 0
    ensures forall s :: s in scores ==> s.points <= SumPoints(scores)
  {
    if scores != [] {
      var init := scores[..|scores| - 1];
      assert forall s :: s in init ==> s in scores;
      SumPointsBounds(init);
    }
  }

  /** `totalPoints`: the sum over the fetched rows, 0 before anything was fetched. */
  function TotalPoints(scores: Option<seq<ManagerScore>>): (total: int)
    ensures scores.None? || scores.value == [] ==> total == 0
    ensures scores.Some? && (forall s :: s in scores.value ==> s.points >= 0) ==>
      total >= 0 && forall s :: s in scores.value ==> s.points <= total
  {
    if scores.None? then 0
    else
      if forall s :: s in scores.value ==> s.points >= 0 then
        SumPointsBounds(scores.value);
        SumPoints(scores.value)
      else SumPoints(scores.value)
  }

  predicate IsSale(s: ManagerScore)
  {
    s.actionType == "sale"
  }

  predicate IsReview(s: ManagerScore)
  {
    s.actionType == "review"
  }

  /** `salesCount`: the rows whose action type is `sale`. */
  function SalesCount(scores: Option<seq<ManagerScore>>): (n: nat)
    ensures scores.None? ==> n == 0
    ensures scores.Some? ==> n <= |scores.value|
    ensures scores.Some? ==> (n == 0 <==> forall s :: s in scores.value ==> !IsSale(s))
  {
    if scores.None? then 0
    else
      var sales := Filter(scores.value, IsSale);
      assert sales != [] ==> sales[0] in sales;
      |sales|
  }

  /** `reviewsCount`: the rows whose action type is `review`. */
  function ReviewsCount(scores: Option<seq<ManagerScore>>): (n: nat)
    ensures scores.None? ==> n == 0
    ensures scores.Some? ==> n <= |scores.value|
    ensures scores.Some? ==> (n == 0 <==> forall s :: s in scores.value ==> !IsReview(s))
  {
    if scores.None? then 0
    else
      var reviews := Filter(scores.value, IsReview);
      assert reviews != [] ==> reviews[0] in reviews;
      |reviews|
  }

  /**
   * The three totals row by row: an empty list gives 0 everywhere, and one
   * more row adds its points to `totalPoints` and 1 to the counter of its
   * action type.
   */
  lemma TotalsStep(scores: seq<ManagerScore>, s: ManagerScore)
    ensures TotalPoints(Some([])) == 0 && SalesCount(Some([])) == 0 && ReviewsCount(Some([])) == 0
    ensures TotalPoints(Some(scores + [s])) == TotalPoints(Some(scores)) + s.points
    ensures SalesCount(Some(scores + [s])) == SalesCount(Some(scores)) + (if s.actionType == "sale" then 1 else 0)
    ensures ReviewsCount(Some(scores + [s])) == ReviewsCount(Some(scores)) + (if s.actionType == "review" then 1 else 0)
  {
    assert (scores + [s])[..|scores + [s]| - 1] == scores;
    FilterSnoc(scores, s, IsSale);
    FilterSnoc(scores, s, IsReview);
  }

  /** No row is both a sale and a review, so the two counters never exceed the number of rows. */
  lemma SalesAndReviewsWithinRows(scores: seq<ManagerScore>)
    ensures SalesCount(Some(scores)) + ReviewsCount(Some(scores)) <= |scores|
  {
    CountDisjoint(scores, IsSale, IsReview);
  }

  datatype ActionIcon = TrendingUp | StarIcon | TrophyIcon

  /** `getActionIcon`. */
  function ActionIconOf(actionType: string): ActionIcon
  {
    match actionType
    case "sale" => TrendingUp
    case "review" => StarIcon
    case _ => TrophyIcon
  }

  /** `getActionColor`. */
  function ActionColorOf(actionType: string): string
  {
    match actionType
    case "sale" => "bg-green-500/10 text-green-500"
    case "review" => "bg-yellow-500/10 text-yellow-500"
    case _ => "bg-primary/10 text-primary"
  }

  /**
   * The two switches classify alike: a row's icon and its colour always
   * name the same kind of action, and only `sale`/`review` leave the default.
   */
  lemma IconAndColorAgree(actionType: string)
    ensures ActionIconOf(actionType) == TrendingUp <==> actionType == "sale"
    ensures ActionIconOf(actionType) == StarIcon <==> actionType == "review"
    ensures ActionIconOf(actionType) == TrendingUp <==> ActionColorOf(actionType) == "bg-green-500/10 text-green-500"
    ensures ActionIconOf(actionType) == StarIcon <==> ActionColorOf(actionType) == "bg-yellow-500/10 text-yellow-500"
    ensures ActionIconOf(actionType) == TrophyIcon <==> ActionColorOf(actionType) == "bg-primary/10 text-primary"
  {
  }

  /** The sales counter counts exactly the rows drawn with the sales icon, the reviews counter the star rows. */
  lemma CountersMatchIcons(scores: seq<ManagerScore>)
    ensures SalesCount(Some(scores)) == Count(scores, (s: ManagerScore) => ActionIconOf(s.actionType) == TrendingUp)
    ensures ReviewsCount(Some(scores)) == Count(scores, (s: ManagerScore) => ActionIconOf(s.actionType) == StarIcon)
  {
    SameFilter(scores, IsSale, (s: ManagerScore) => ActionIconOf(s.actionType) == TrendingUp);
    SameFilter(scores, IsReview, (s: ManagerScore) => ActionIconOf(s.actionType) == StarIcon);
  }

  /** Filters by predicates that agree on every element give the same rows. */
  lemma {:induction false} SameFilter<T(!new)>(s: seq<T>, p: T -> bool, q: T -> bool)
    requires forall x :: p(x) == q(x)
    ensures Filter(s, p) == Filter(s, q)
  {
    if s != [] {
      SameFilter(s[..|s| - 1], p, q);
    }
  }
}
