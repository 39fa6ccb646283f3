/**
 * The admin's manager leaderboard (src/pages/admin/AdminManagers.tsx): the
 * managers' profiles, each with the sum of their score points, their
 * approved reviews' rating tally and their lead counts, best first.
 */
module AdminManagers {
  import opened Seqs
  import opened Domain
  import Ordering
  import ManagerScores

  /** The user ids of the `manager` role rows. */
  function ManagerIds(roles: seq<RoleRow>): (ids: set<Uuid>)
    ensures forall u :: u in ids <==> exists r :: r in roles && r.role == Manager && r.userId == u
  {
    set r | r in roles && r.role == Manager :: r.userId
  }

  // ---------------------------------------------------------------- what each figure means

  function ScoresOf(scores: seq<ManagerScore>, m: Uuid): seq<ManagerScore>
  {
    Filter(scores, (s: ManagerScore) => s.managerId == m)
  }

  /** A manager's points: the sum over their score rows. */
  function PointsOf(scores: seq<ManagerScore>, m: Uuid): int
  {
    ManagerScores.SumPoints(ScoresOf(scores, m))
  }

  /** A manager's approved reviews. */
  function ApprovedOf(reviews: seq<Review>, m: Uuid): seq<Review>
  {
    Filter(reviews, (r: Review) => r.managerId == Some(m) && r.isApproved == Some(true))
  }

  /** The sum of the ratings of some reviews. */
  function RatingSum(reviews: seq<Review>): int
  {
    if reviews == [] then 0 else RatingSum(reviews[..|reviews| - 1]) + reviews[|reviews| - 1].rating
  }

  function LeadsOf(leads: seq<Lead>, m: Uuid): seq<Lead>
  {
    Filter(leads, (l: Lead) => l.assignedManager == Some(m))
  }

  function WonOf(leads: seq<Lead>, m: Uuid): seq<Lead>
  {
    Filter(leads, (l: Lead) => l.assignedManager == Some(m) && l.status == ClosedWon)
  }

  /** A manager's won leads are among their leads. */
  lemma WonWithinLeads(leads: seq<Lead>, m: Uuid)
    ensures |WonOf(leads, m)| <= |LeadsOf(leads, m)|
  {
    FilterNarrower(leads, (l: Lead) => l.assignedManager == Some(m),
                   (l: Lead) => l.assignedManager == Some(m) && l.status == ClosedWon);
  }

  // ---------------------------------------------------------------- the three reduce loops

  /** `scoresByManager` after the rows `scores`, one `reduce` step per row. */
  function PointsMap(scores: seq<ManagerScore>): map<Uuid, int>
  {
    if scores == [] then map[]
    else
      var acc := PointsMap(scores[..|scores| - 1]);
      var s := scores[|scores| - 1];
      acc[s.managerId := (if s.managerId in acc then acc[s.managerId] else 0) + s.points]
  }

  /** The dictionary holds the managers with score rows, each with the sum of their points. */
  lemma {:induction false} PointsMapMeaning(scores: seq<ManagerScore>, m: Uuid)
    ensures m in PointsMap(scores) <==> ScoresOf(scores, m) != []
    ensures m in PointsMap(scores) ==> PointsMap(scores)[m] == PointsOf(scores, m)
  {
    if scores != [] {
      var init, s := scores[..|scores| - 1], scores[|scores| - 1];
      assert scores == init + [s];
      PointsMapMeaning(init, m);
      FilterSnoc(init, s, (t: ManagerScore) => t.managerId == m);
      if s.managerId == m {
        PointsAfter(ScoresOf(init, m), s);
      }
    }
  }

  lemma PointsAfter(rows: seq<ManagerScore>, s: ManagerScore)
    ensures ManagerScores.SumPoints(rows + [s]) == ManagerScores.SumPoints(rows) + s.points
  {
    assert (rows + [s])[..|rows|] == rows;
  }

  /** `scoresByManager`: each manager's points, keyed by the managers that have score rows. */
  method ScoresByManager(scores: seq<ManagerScore>) returns (acc: map<Uuid, int>)
    ensures forall m :: m in acc <==> ScoresOf(scores, m) != []
    ensures forall m :: m in acc ==> acc[m] == PointsOf(scores, m)
  {
    acc := map[];
    var i := 0;
    while i < |scores|
      invariant 0 <= i <= |scores|
      invariant acc == PointsMap(scores[..i])
    {
      var s := scores[i];
      assert scores[..i + 1][..i] == scores[..i];
      acc := acc[s.managerId := (if s.managerId in acc then acc[s.managerId] else 0) + s.points];
      i := i + 1;
    }
    assert scores[..i] == scores;
    forall m ensures (m in acc <==> ScoresOf(scores, m) != []) && (m in acc ==> acc[m] == PointsOf(scores, m)) {
      PointsMapMeaning(scores, m);
    }
  }

  /** A manager's approved reviews as a `(total, count)` pair; the average is `total / count`. */
  datatype RatingTally = RatingTally(total: int, count: nat)

  /** `reviewsByManager` after the rows `reviews`; a row without a manager is keyed by nobody. */
  function RatingsMap(reviews: seq<Review>): map<Uuid, RatingTally>
  {
    if reviews == [] then map[]
    else
      var acc := RatingsMap(reviews[..|reviews| - 1]);
      var r := reviews[|reviews| - 1];
      if r.managerId.None? then acc
      else
        var id := r.managerId.value;
        var t := if id in acc then acc[id] else RatingTally(0, 0);
        acc[id := RatingTally(t.total + r.rating, t.count + 1)]
  }

  lemma RatingSumAfter(rows: seq<Review>, r: Review)
    ensures RatingSum(rows + [r]) == RatingSum(rows) + r.rating
  {
    assert (rows + [r])[..|rows|] == rows;
  }

  /** Over approved reviews, the dictionary holds each reviewed manager's rating total and review count. */
  lemma {:induction false} RatingsMapMeaning(reviews: seq<Review>, m: Uuid)
    requires forall r :: r in reviews ==> r.managerId.Some? && r.isApproved == Some(true)
    ensures m in RatingsMap(reviews) <==> ApprovedOf(reviews, m) != []
    ensures m in RatingsMap(reviews) ==>
      RatingsMap(reviews)[m] == RatingTally(RatingSum(ApprovedOf(reviews, m)), |ApprovedOf(reviews, m)|)
  {
    if reviews != [] {
      var init, r := reviews[..|reviews| - 1], reviews[|reviews| - 1];
      assert reviews == init + [r];
      assert r in reviews;
      assert forall x :: x in init ==> x in reviews;
      RatingsMapMeaning(init, m);
      RatingsMapStep(init, r, m);
    }
  }

  /** One `reduce` step over an approved review with a manager keeps the dictionary's meaning. */
  lemma RatingsMapStep(init: seq<Review>, r: Review, m: Uuid)
    requires r.managerId.Some? && r.isApproved == Some(true)
    requires m in RatingsMap(init) <==> ApprovedOf(init, m) != []
    requires m in RatingsMap(init) ==>
      RatingsMap(init)[m] == RatingTally(RatingSum(ApprovedOf(init, m)), |ApprovedOf(init, m)|)
    ensures m in RatingsMap(init + [r]) <==> ApprovedOf(init + [r], m) != []
    ensures m in RatingsMap(init + [r]) ==>
      RatingsMap(init + [r])[m] == RatingTally(RatingSum(ApprovedOf(init + [r], m)), |ApprovedOf(init + [r], m)|)
  {
    var reviews := init + [r];
    RatingsMapSnoc(init, r);
    FilterSnoc(init, r, (x: Review) => x.managerId == Some(m) && x.isApproved == Some(true));
    if r.managerId.value == m {
      RatingSumAfter(ApprovedOf(init, m), r);
      assert ApprovedOf(reviews, m) == ApprovedOf(init, m) + [r];
    } else {
      assert ApprovedOf(reviews, m) == ApprovedOf(init, m);
    }
  }

  /** `RatingsMap` one review with a manager further. */
  lemma RatingsMapSnoc(init: seq<Review>, r: Review)
    requires r.managerId.Some?
    ensures var acc, id := RatingsMap(init), r.managerId.value;
      var t := if id in acc then acc[id] else RatingTally(0, 0);
      RatingsMap(init + [r]) == acc[id := RatingTally(t.total + r.rating, t.count + 1)]
  {
    var reviews := init + [r];
    assert reviews[..|reviews| - 1] == init && reviews[|reviews| - 1] == r;
  }

  /**
   * `reviewsByManager` over the approved reviews the page fetched: each
   * reviewed manager's rating total and review count.
   */
  method ReviewsByManager(reviews: seq<Review>) returns (acc: map<Uuid, RatingTally>)
    requires forall r :: r in reviews ==> r.managerId.Some? && r.isApproved == Some(true)
    ensures forall m :: m in acc <==> ApprovedOf(reviews, m) != []
    ensures forall m :: m in acc ==> acc[m] == RatingTally(RatingSum(ApprovedOf(reviews, m)), |ApprovedOf(reviews, m)|)
  {
    acc := map[];
    var i := 0;
    while i < |reviews|
      invariant 0 <= i <= |reviews|
      invariant acc == RatingsMap(reviews[..i])
    {
      var r := reviews[i];
      assert reviews[..i + 1][..i] == reviews[..i];
      assert r in reviews;
      var id := r.managerId.value;
      if id !in acc {
        acc := acc[id := RatingTally(0, 0)];
      }
      acc := acc[id := acc[id].(total := acc[id].total + r.rating)];
      acc := acc[id := acc[id].(count := acc[id].count + 1)];
      i := i + 1;
    }
    assert reviews[..i] == reviews;
    forall m ensures (m in acc <==> ApprovedOf(reviews, m) != []) &&
                     (m in acc ==> acc[m] == RatingTally(RatingSum(ApprovedOf(reviews, m)), |ApprovedOf(reviews, m)|)) {
      RatingsMapMeaning(reviews, m);
    }
  }

  /** A manager's lead counts. */
  datatype LeadTally = LeadTally(total: nat, won: nat)

  /** `leadsByManager` after the rows `leads`. */
  function LeadsMap(leads: seq<Lead>): map<Uuid, LeadTally>
  {
    if leads == [] then map[]
    else
      var acc := LeadsMap(leads[..|leads| - 1]);
      var l := leads[|leads| - 1];
      if l.assignedManager.None? then acc
      else
        var id := l.assignedManager.value;
        var t := if id in acc then acc[id] else LeadTally(0, 0);
        acc[id := LeadTally(t.total + 1, if l.status == ClosedWon then t.won + 1 else t.won)]
  }

  /** The dictionary holds each manager with leads, with their lead and won counts. */
  lemma {:induction false} LeadsMapMeaning(leads: seq<Lead>, m: Uuid)
    ensures m in LeadsMap(leads) <==> LeadsOf(leads, m) != []
    ensures m in LeadsMap(leads) ==> LeadsMap(leads)[m] == LeadTally(|LeadsOf(leads, m)|, |WonOf(leads, m)|)
  {
    if leads != [] {
      var init, l := leads[..|leads| - 1], leads[|leads| - 1];
      assert leads == init + [l];
      LeadsMapMeaning(init, m);
      LeadsMapStep(init, l, m);
    }
  }

  /** One `reduce` step over a lead keeps the dictionary's meaning. */
  lemma LeadsMapStep(init: seq<Lead>, l: Lead, m: Uuid)
    requires m in LeadsMap(init) <==> LeadsOf(init, m) != []
    requires m in LeadsMap(init) ==> LeadsMap(init)[m] == LeadTally(|LeadsOf(init, m)|, |WonOf(init, m)|)
    ensures m in LeadsMap(init + [l]) <==> LeadsOf(init + [l], m) != []
    ensures m in LeadsMap(init + [l]) ==>
      LeadsMap(init + [l])[m] == LeadTally(|LeadsOf(init + [l], m)|, |WonOf(init + [l], m)|)
  {
    var leads := init + [l];
    var acc := LeadsMap(init);
    LeadsMapSnoc(init, l);
    FilterSnoc(init, l, (t: Lead) => t.assignedManager == Some(m));
    FilterSnoc(init, l, (t: Lead) => t.assignedManager == Some(m) && t.status == ClosedWon);
    if l.assignedManager == Some(m) {
      if LeadsOf(init, m) == [] {
        WonWithinLeads(init, m);
      }
    } else {
      assert LeadsOf(leads, m) == LeadsOf(init, m) && WonOf(leads, m) == WonOf(init, m);
      assert m in LeadsMap(leads) <==> m in acc;
    }
  }

  /** `LeadsMap` one lead further. */
  lemma LeadsMapSnoc(init: seq<Lead>, l: Lead)
    ensures l.assignedManager.None? ==> LeadsMap(init + [l]) == LeadsMap(init)
    ensures l.assignedManager.Some? ==>
      var acc, id := LeadsMap(init), l.assignedManager.value;
      var t := if id in acc then acc[id] else LeadTally(0, 0);
      LeadsMap(init + [l]) == acc[id := LeadTally(t.total + 1, if l.status == ClosedWon then t.won + 1 else t.won)]
  {
    var leads := init + [l];
    assert leads[..|leads| - 1] == init && leads[|leads| - 1] == l;
  }

  /** `leadsByManager`: leads with no manager are skipped; the others count, and the won ones twice over. */
  method LeadsByManager(leads: seq<Lead>) returns (acc: map<Uuid, LeadTally>)
    ensures forall m :: m in acc <==> LeadsOf(leads, m) != []
    ensures forall m :: m in acc ==> acc[m] == LeadTally(|LeadsOf(leads, m)|, |WonOf(leads, m)|)
  {
    acc := map[];
    var i := 0;
    while i < |leads|
      invariant 0 <= i <= |leads|
      invariant acc == LeadsMap(leads[..i])
    {
      var l := leads[i];
      assert leads[..i + 1][..i] == leads[..i];
      if l.assignedManager.Some? {
        var id := l.assignedManager.value;
        if id !in acc {
          acc := acc[id := LeadTally(0, 0)];
        }
        acc := acc[id := acc[id].(total := acc[id].total + 1)];
        if l.status == ClosedWon {
          acc := acc[id := acc[id].(won := acc[id].won + 1)];
        }
      }
      i := i + 1;
    }
    assert leads[..i] == leads;
    forall m ensures (m in acc <==> LeadsOf(leads, m) != []) &&
                     (m in acc ==> acc[m] == LeadTally(|LeadsOf(leads, m)|, |WonOf(leads, m)|)) {
      LeadsMapMeaning(leads, m);
    }
  }

  // ---------------------------------------------------------------- the leaderboard

  /** One leaderboard row: the profile and the figures added to it. */
  datatype ManagerRow = ManagerRow(
    profile: Profile,
    totalPoints: int,
    avgRating: Option<RatingTally>,
    reviewCount: nat,
    leadsTotal: nat,
    leadsWon: nat)

  function RowPoints(row: ManagerRow): int
  {
    row.totalPoints
  }

  /** The row a manager should get, read straight off the tables. */
  function ExpectedRow(p: Profile, scores: seq<ManagerScore>, reviews: seq<Review>, leads: seq<Lead>): ManagerRow
  {
    var m := p.userId;
    var approved := ApprovedOf(reviews, m);
    ManagerRow(p, PointsOf(scores, m),
               if approved == [] then None else Some(RatingTally(RatingSum(approved), |approved|)),
               |approved|, |LeadsOf(leads, m)|, |WonOf(leads, m)|)
  }

  /**
   * Every row's figures are consistent: the average is missing exactly when
   * there is no approved review and otherwise averages over the review
   * count, and no manager has won more leads than they hold.
   */
  lemma ExpectedRowConsistent(p: Profile, scores: seq<ManagerScore>, reviews: seq<Review>, leads: seq<Lead>)
    ensures var row := ExpectedRow(p, scores, reviews, leads);
      (row.avgRating.None? <==> row.reviewCount == 0) &&
      (row.avgRating.Some? ==> row.avgRating.value.count == row.reviewCount) &&
      row.leadsWon <= row.leadsTotal
  {
    WonWithinLeads(leads, p.userId);
  }

  /** A manager with no score rows has 0 points. */
  lemma NoScoresNoPoints(p: Profile, scores: seq<ManagerScore>, reviews: seq<Review>, leads: seq<Lead>)
    requires forall s :: s in scores ==> s.managerId != p.userId
    ensures ExpectedRow(p, scores, reviews, leads).totalPoints == 0
  {
    FilterNone(scores, (s: ManagerScore) => s.managerId == p.userId);
  }

  /** A review still awaiting moderation changes no manager's row. */
  lemma PendingReviewIgnored(p: Profile, scores: seq<ManagerScore>, reviews: seq<Review>, leads: seq<Lead>, r: Review)
    requires r.isApproved != Some(true)
    ensures ExpectedRow(p, scores, reviews + [r], leads) == ExpectedRow(p, scores, reviews, leads)
  {
    FilterSnoc(reviews, r, (t: Review) => t.managerId == Some(p.userId) && t.isApproved == Some(true));
  }

  /** A lead nobody is assigned to changes no manager's row. */
  lemma UnassignedLeadIgnored(p: Profile, scores: seq<ManagerScore>, reviews: seq<Review>, leads: seq<Lead>, l: Lead)
    requires l.assignedManager.None?
    ensures ExpectedRow(p, scores, reviews, leads + [l]) == ExpectedRow(p, scores, reviews, leads)
  {
    FilterSnoc(leads, l, (t: Lead) => t.assignedManager == Some(p.userId));
    FilterSnoc(leads, l, (t: Lead) => t.assignedManager == Some(p.userId) && t.status == ClosedWon);
  }

  /** The row the `profiles?.map(...)` callback builds from the three dictionaries, with `|| 0` and `?.` fallbacks. */
  function RowFromMaps(p: Profile, points: map<Uuid, int>, ratings: map<Uuid, RatingTally>,
                       leadCounts: map<Uuid, LeadTally>): ManagerRow
  {
    var m := p.userId;
    ManagerRow(p,
               if m in points then points[m] else 0,
               if m in ratings then Some(ratings[m]) else None,
               if m in ratings then ratings[m].count else 0,
               if m in leadCounts then leadCounts[m].total else 0,
               if m in leadCounts then leadCounts[m].won else 0)
  }

  function RowsFromMaps(profiles: seq<Profile>, points: map<Uuid, int>, ratings: map<Uuid, RatingTally>,
                        leadCounts: map<Uuid, LeadTally>): (rows: seq<ManagerRow>)
    ensures |rows| == |profiles|
    ensures forall i :: 0 <= i < |rows| ==> rows[i] == RowFromMaps(profiles[i], points, ratings, leadCounts)
  {
    if profiles == [] then []
    else [RowFromMaps(profiles[0], points, ratings, leadCounts)] + RowsFromMaps(profiles[1..], points, ratings, leadCounts)
  }

  /** Dictionaries built by the three loops give each profile its expected row. */
  lemma RowFromMapsExpected(p: Profile, points: map<Uuid, int>, ratings: map<Uuid, RatingTally>,
                            leadCounts: map<Uuid, LeadTally>,
                            scores: seq<ManagerScore>, reviews: seq<Review>, leads: seq<Lead>)
    requires forall m :: m in points <==> ScoresOf(scores, m) != []
    requires forall m :: m in points ==> points[m] == PointsOf(scores, m)
    requires forall m :: m in ratings <==> ApprovedOf(reviews, m) != []
    requires forall m :: m in ratings ==> ratings[m] == RatingTally(RatingSum(ApprovedOf(reviews, m)), |ApprovedOf(reviews, m)|)
    requires forall m :: m in leadCounts <==> LeadsOf(leads, m) != []
    requires forall m :: m in leadCounts ==> leadCounts[m] == LeadTally(|LeadsOf(leads, m)|, |WonOf(leads, m)|)
    ensures RowFromMaps(p, points, ratings, leadCounts) == ExpectedRow(p, scores, reviews, leads)
  {
    var m := p.userId;
    if m !in leadCounts {
      WonWithinLeads(leads, m);
    }
  }

  /** The page's query results: the rows whose manager column is one of `ids`. */
  function ScoreRowsFor(scores: seq<ManagerScore>, ids: set<Uuid>): seq<ManagerScore>
  {
    Filter(scores, (s: ManagerScore) => s.managerId in ids)
  }

  function ReviewRowsFor(reviews: seq<Review>, ids: set<Uuid>): seq<Review>
  {
    Filter(reviews, (r: Review) => r.managerId.Some? && r.managerId.value in ids && r.isApproved == Some(true))
  }

  function LeadRowsFor(leads: seq<Lead>, ids: set<Uuid>): seq<Lead>
  {
    Filter(leads, (l: Lead) => l.assignedManager.Some? && l.assignedManager.value in ids)
  }

  function ProfilesFor(profiles: seq<Profile>, ids: set<Uuid>): seq<Profile>
  {
    Filter(profiles, (p: Profile) => p.userId in ids)
  }

  /** For a manager, the fetched rows hold all of their rows: the `.in(...)` filters drop only other users' rows. */
  lemma QueriesKeepManagerRows(scores: seq<ManagerScore>, reviews: seq<Review>, leads: seq<Lead>, ids: set<Uuid>, m: Uuid)
    requires m in ids
    ensures ScoresOf(ScoreRowsFor(scores, ids), m) == ScoresOf(scores, m)
    ensures ApprovedOf(ReviewRowsFor(reviews, ids), m) == ApprovedOf(reviews, m)
    ensures LeadsOf(LeadRowsFor(leads, ids), m) == LeadsOf(leads, m)
    ensures WonOf(LeadRowsFor(leads, ids), m) == WonOf(leads, m)
  {
    FilterNarrower(scores, (s: ManagerScore) => s.managerId in ids, (s: ManagerScore) => s.managerId == m);
    FilterNarrower(reviews, (r: Review) => r.managerId.Some? && r.managerId.value in ids && r.isApproved == Some(true),
                   (r: Review) => r.managerId == Some(m) && r.isApproved == Some(true));
    FilterNarrower(leads, (l: Lead) => l.assignedManager.Some? && l.assignedManager.value in ids,
                   (l: Lead) => l.assignedManager == Some(m));
    FilterNarrower(leads, (l: Lead) => l.assignedManager.Some? && l.assignedManager.value in ids,
                   (l: Lead) => l.assignedManager == Some(m) && l.status == ClosedWon);
  }

  /**
   * The `managers` query: no manager role gives `[]`; otherwise each
   * manager's profile gets the row read off the tables, and the rows are
   * sorted by points, highest first.
   */
  method Leaderboard(roles: seq<RoleRow>, profiles: seq<Profile>, scores: seq<ManagerScore>,
                     reviews: seq<Review>, leads: seq<Lead>) returns (board: seq<ManagerRow>)
    ensures ManagerIds(roles) == {} ==> board == []
    ensures |board| == |ProfilesFor(profiles, ManagerIds(roles))|
    ensures forall row :: row in board ==>
      row.profile in profiles && row.profile.userId in ManagerIds(roles) &&
      row == ExpectedRow(row.profile, scores, reviews, leads)
    ensures forall p :: p in profiles && p.userId in ManagerIds(roles) ==> ExpectedRow(p, scores, reviews, leads) in board
    ensures Ordering.NonIncreasing(board, RowPoints)
  {
    var ids := ManagerIds(roles);
    if ids == {} {
      FilterNone(profiles, (p: Profile) => p.userId in ids);
      return [];
    }
    var managers := ProfilesFor(profiles, ids);
    var scoreRows := ScoreRowsFor(scores, ids);
    var reviewRows := ReviewRowsFor(reviews, ids);
    var leadRows := LeadRowsFor(leads, ids);
    var points := ScoresByManager(scoreRows);
    var ratings := ReviewsByManager(reviewRows);
    var leadCounts := LeadsByManager(leadRows);
    var rows := RowsFromMaps(managers, points, ratings, leadCounts);
    RowsFromMapsExpected(managers, ids, points, ratings, leadCounts, scores, reviews, leads);
    board := Ordering.SortDesc(rows, RowPoints);
    SortedRowsMeaning(profiles, ids, rows, board, scores, reviews, leads);
  }

  /** The dictionaries the page builds from its query results give each manager profile its expected row. */
  lemma RowsFromMapsExpected(managers: seq<Profile>, ids: set<Uuid>, points: map<Uuid, int>,
                             ratings: map<Uuid, RatingTally>, leadCounts: map<Uuid, LeadTally>,
                             scores: seq<ManagerScore>, reviews: seq<Review>, leads: seq<Lead>)
    requires forall i :: 0 <= i < |managers| ==> managers[i].userId in ids
    requires forall m :: m in points <==> ScoresOf(ScoreRowsFor(scores, ids), m) != []
    requires forall m :: m in points ==> points[m] == PointsOf(ScoreRowsFor(scores, ids), m)
    requires forall m :: m in ratings <==> ApprovedOf(ReviewRowsFor(reviews, ids), m) != []
    requires forall m :: m in ratings ==>
      ratings[m] == RatingTally(RatingSum(ApprovedOf(ReviewRowsFor(reviews, ids), m)), |ApprovedOf(ReviewRowsFor(reviews, ids), m)|)
    requires forall m :: m in leadCounts <==> LeadsOf(LeadRowsFor(leads, ids), m) != []
    requires forall m :: m in leadCounts ==>
      leadCounts[m] == LeadTally(|LeadsOf(LeadRowsFor(leads, ids), m)|, |WonOf(LeadRowsFor(leads, ids), m)|)
    ensures var rows := RowsFromMaps(managers, points, ratings, leadCounts);
      forall i :: 0 <= i < |rows| ==> rows[i] == ExpectedRow(managers[i], scores, reviews, leads)
  {
    var rows := RowsFromMaps(managers, points, ratings, leadCounts);
    forall i | 0 <= i < |rows| ensures rows[i] == ExpectedRow(managers[i], scores, reviews, leads) {
      var p := managers[i];
      QueriesKeepManagerRows(scores, reviews, leads, ids, p.userId);
      RowFromMapsExpected(p, points, ratings, leadCounts,
                          ScoreRowsFor(scores, ids), ReviewRowsFor(reviews, ids), LeadRowsFor(leads, ids));
    }
  }

  /** Sorting the manager rows keeps exactly one expected row per manager profile. */
  lemma SortedRowsMeaning(profiles: seq<Profile>, ids: set<Uuid>, rows: seq<ManagerRow>, board: seq<ManagerRow>,
                          scores: seq<ManagerScore>, reviews: seq<Review>, leads: seq<Lead>)
    requires |rows| == |ProfilesFor(profiles, ids)|
    requires forall i :: 0 <= i < |rows| ==> rows[i] == ExpectedRow(ProfilesFor(profiles, ids)[i], scores, reviews, leads)
    requires forall x :: x in board <==> x in rows
    ensures forall row :: row in board ==>
      row.profile in profiles && row.profile.userId in ids &&
      row == ExpectedRow(row.profile, scores, reviews, leads)
    ensures forall p :: p in profiles && p.userId in ids ==> ExpectedRow(p, scores, reviews, leads) in board
  {
    var managers := ProfilesFor(profiles, ids);
    forall row | row in board
      ensures row.profile in profiles && row.profile.userId in ids
      ensures row == ExpectedRow(row.profile, scores, reviews, leads)
    {
      var i :| 0 <= i < |rows| && rows[i] == row;
      assert managers[i] in managers;
    }
    forall p | p in profiles && p.userId in ids ensures ExpectedRow(p, scores, reviews, leads) in board {
      assert p in managers;
      var i :| 0 <= i < |managers| && managers[i] == p;
      assert rows[i] in rows;
    }
  }
}
