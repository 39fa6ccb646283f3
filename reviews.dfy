/**
 * The `reviews` table and the moderation page over it
 * (src/pages/admin/AdminReviews.tsx): the newest-first listing, its split
 * into pending and published reviews, approve/reject, delete, and the
 * buttons each review card offers.
 */
module Reviews {
  import opened Seqs
  import opened Domain
  import Ordering

  function ReviewIds(rows: seq<Review>): set<Uuid>
  {
    set r | r in rows :: r.id
  }

  /** The columns a client sends when it inserts a review. */
  datatype NewReview = NewReview(
    leadId: Option<Uuid>,
    managerId: Option<Uuid>,
    rating: int,
    comment: Option<string>,
    customerName: Option<string>,
    isApproved: Option<bool>)

  /** The inserted row: the store adds the primary key and `created_at`. */
  function ReviewRow(p: NewReview, id: Uuid, createdAt: int): (r: Review)
    ensures r.id == id && r.createdAt == createdAt
    ensures r.leadId == p.leadId && r.managerId == p.managerId && r.rating == p.rating
    ensures r.comment == p.comment && r.customerName == p.customerName && r.isApproved == p.isApproved
  {
    Review(id, p.leadId, p.managerId, p.rating, p.comment, p.customerName, p.isApproved, createdAt)
  }

  /** `!r.is_approved`: a review is pending while the flag is `null` or `false`. */
  predicate IsPending(r: Review)
  {
    r.isApproved != Some(true)
  }

  predicate IsApproved(r: Review)
  {
    r.isApproved == Some(true)
  }

  function NotId(id: Uuid): Review -> bool
  {
    (r: Review) => r.id != id
  }

  /** The `reviews` table of the store. */
  class ReviewTable {
    var rows: seq<Review>

    ghost predicate Valid()
      reads this
    {
      UniqueReviewIds(rows)
    }

    constructor (initial: seq<Review>)
      requires UniqueReviewIds(initial)
      ensures Valid() && rows == initial
    {
      rows := initial;
    }

    /**
     * `insert(payload)` with no `.select()`: the only outcome the client
     * sees is the error, here a clashing primary key.
     */
    method Insert(payload: NewReview, id: Uuid, createdAt: int) returns (error: Option<string>)
      requires Valid()
      modifies this
      ensures Valid()
      ensures id in ReviewIds(old(rows)) ==> error.Some? && rows == old(rows)
      ensures id !in ReviewIds(old(rows)) ==>
        error.None? && rows == old(rows) + [ReviewRow(payload, id, createdAt)]
    {
      if id in ReviewIds(rows) {
        error := Some("duplicate key value violates unique constraint \"reviews_pkey\"");
      } else {
        assert forall i :: 0 <= i < |rows| ==> rows[i] in rows;
        rows := rows + [ReviewRow(payload, id, createdAt)];
        error := None;
      }
    }

    /**
     * `update({ is_approved: approve }).eq('id', id)`: sets the flag of the
     * row with that id; an id that matches nothing is not an error.
     * `refusal` is the store's error, if it refuses the statement.
     */
    method SetApproval(id: Uuid, approve: bool, refusal: Option<string>) returns (error: Option<string>)
      requires Valid()
      modifies this
      ensures Valid()
      ensures error == refusal
      ensures refusal.Some? ==> rows == old(rows)
      ensures |rows| == |old(rows)|
      ensures refusal.None? ==> forall i :: 0 <= i < |rows| ==>
        rows[i] == if old(rows)[i].id == id then old(rows)[i].(isApproved := Some(approve)) else old(rows)[i]
    {
      error := refusal;
      if refusal.None? {
        rows := seq(|rows|, i requires 0 <= i < |rows| reads this =>
          if rows[i].id == id then rows[i].(isApproved := Some(approve)) else rows[i]);
      }
    }

    /**
     * `delete().eq('id', id)`: removes the row with that id, if any, and
     * keeps the others in order; `refusal` is the store's error, if any.
     */
    method Delete(id: Uuid, refusal: Option<string>) returns (error: Option<string>)
      requires Valid()
      modifies this
      ensures Valid()
      ensures error == refusal
      ensures refusal.Some? ==> rows == old(rows)
      ensures refusal.None? ==> forall r :: r in rows <==> r in old(rows) && r.id != id
      ensures refusal.None? ==> id !in ReviewIds(rows)
      ensures multiset(rows) <= multiset(old(rows))
      ensures id !in ReviewIds(old(rows)) ==> rows == old(rows)
    {
      error := refusal;
      if refusal.Some? {
        return;
      }
      var kept := Filter(rows, NotId(id));
      if id !in ReviewIds(rows) {
        FilterAll(rows, NotId(id));
      }
      FilterKeepsUnique(rows, NotId(id), ReviewId);
      FilterSubMultiset(rows, NotId(id));
      rows := kept;
    }
  }

  // ---------------------------------------------------------------- moderation page

  /** The page's query: every review, newest first. */
  function AllReviews(rows: seq<Review>): (r: seq<Review>)
    ensures Ordering.NonIncreasing(r, ReviewCreatedAt)
    ensures multiset(r) == multiset(rows)
  {
    Ordering.SortDesc(rows, ReviewCreatedAt)
  }

  /** `pendingReviews`. */
  function Pending(list: seq<Review>): (r: seq<Review>)
    ensures forall x :: x in r <==> x in list && x.isApproved != Some(true)
  {
    Filter(list, IsPending)
  }

  /** `approvedReviews`. */
  function Approved(list: seq<Review>): (r: seq<Review>)
    ensures forall x :: x in r <==> x in list && x.isApproved == Some(true)
  {
    Filter(list, IsApproved)
  }

  /** Every review is in exactly one of the two lists, as often as in the listing. */
  lemma ModerationPartition(list: seq<Review>)
    ensures multiset(Pending(list)) + multiset(Approved(list)) == multiset(list)
    ensures |Pending(list)| + |Approved(list)| == |list|
  {
    FilterPartition(list, IsPending, IsApproved);
  }

  /** Both lists keep the newest-first order of the listing. */
  lemma ModerationListsNewestFirst(rows: seq<Review>)
    ensures Ordering.NonIncreasing(Pending(AllReviews(rows)), ReviewCreatedAt)
    ensures Ordering.NonIncreasing(Approved(AllReviews(rows)), ReviewCreatedAt)
  {
    Ordering.FilterNonIncreasing(AllReviews(rows), IsPending, ReviewCreatedAt);
    Ordering.FilterNonIncreasing(AllReviews(rows), IsApproved, ReviewCreatedAt);
  }

  datatype ReviewAction = ApproveAction | RejectAction | DeleteAction

  /** A rendered `ReviewCard`: the review, its badge and the buttons it shows. */
  datatype ReviewCard = ReviewCard(review: Review, badge: string, actions: set<ReviewAction>)

  function PendingCard(r: Review): ReviewCard
  {
    ReviewCard(r, "На модерации", {ApproveAction, RejectAction, DeleteAction})
  }

  function PublishedCard(r: Review): ReviewCard
  {
    ReviewCard(r, "Опубликован", {DeleteAction})
  }

  function PendingCards(list: seq<Review>): (r: seq<ReviewCard>)
    ensures |r| == |list|
    ensures forall i :: 0 <= i < |r| ==> r[i] == PendingCard(list[i])
  {
    if list == [] then [] else [PendingCard(list[0])] + PendingCards(list[1..])
  }

  function PublishedCards(list: seq<Review>): (r: seq<ReviewCard>)
    ensures |r| == |list|
    ensures forall i :: 0 <= i < |r| ==> r[i] == PublishedCard(list[i])
  {
    if list == [] then [] else [PublishedCard(list[0])] + PublishedCards(list[1..])
  }

  /** The two sections of the page and the three counters above them. */
  datatype ModerationPage = ModerationPage(
    total: nat, pendingCount: nat, approvedCount: nat,
    pendingSection: seq<ReviewCard>, publishedSection: seq<ReviewCard>)

  function PageOf(rows: seq<Review>): ModerationPage
  {
    var list := AllReviews(rows);
    ModerationPage(|list|, |Pending(list)|, |Approved(list)|,
                   PendingCards(Pending(list)), PublishedCards(Approved(list)))
  }

  /** Each card of the pending section shows a pending review of the table, with approve and reject. */
  lemma PendingSectionActions(rows: seq<Review>, c: ReviewCard)
    requires c in PageOf(rows).pendingSection
    ensures IsPending(c.review) && c.review in rows
    ensures c.actions == {ApproveAction, RejectAction, DeleteAction}
  {
    var list := AllReviews(rows);
    var cards := PageOf(rows).pendingSection;
    var i :| 0 <= i < |cards| && cards[i] == c;
    assert c.review == Pending(list)[i];
    assert c.review in list;
    assert c.review in multiset(rows);
  }

  /** Each card of the published section shows an approved review of the table, with delete only. */
  lemma PublishedSectionActions(rows: seq<Review>, c: ReviewCard)
    requires c in PageOf(rows).publishedSection
    ensures IsApproved(c.review) && c.review in rows
    ensures c.actions == {DeleteAction}
  {
    var list := AllReviews(rows);
    var cards := PageOf(rows).publishedSection;
    var i :| 0 <= i < |cards| && cards[i] == c;
    assert c.review == Approved(list)[i];
    assert c.review in list;
    assert c.review in multiset(rows);
  }

  /** The pending and published counters add up to the number of reviews. */
  lemma PageCounters(rows: seq<Review>)
    ensures PageOf(rows).pendingCount + PageOf(rows).approvedCount == PageOf(rows).total == |rows|
  {
    ModerationPartition(AllReviews(rows));
  }

  /** Every review of the table gets exactly one card, in the section its flag selects. */
  lemma EveryReviewShown(rows: seq<Review>, x: Review)
    requires x in rows
    ensures IsPending(x) ==> PendingCard(x) in PageOf(rows).pendingSection
    ensures IsApproved(x) ==> PublishedCard(x) in PageOf(rows).publishedSection
  {
    var list := AllReviews(rows);
    assert x in multiset(rows);
    assert x in list;
    if IsPending(x) {
      var i :| 0 <= i < |Pending(list)| && Pending(list)[i] == x;
      assert PageOf(rows).pendingSection[i] == PendingCard(x);
    } else {
      var i :| 0 <= i < |Approved(list)| && Approved(list)[i] == x;
      assert PageOf(rows).publishedSection[i] == PublishedCard(x);
    }
  }

  /** `approveMutation`: the flag update and the toast of its `onSuccess`/`onError`. */
  method Moderate(table: ReviewTable, id: Uuid, approve: bool, refusal: Option<string>) returns (toast: Toast)
    requires table.Valid()
    modifies table
    ensures table.Valid()
    ensures refusal.Some? ==> table.rows == old(table.rows) && toast == Failure("Ошибка при обновлении отзыва")
    ensures refusal.None? ==>
      |table.rows| == |old(table.rows)| &&
      (forall i :: 0 <= i < |table.rows| ==>
        table.rows[i] == if old(table.rows)[i].id == id then old(table.rows)[i].(isApproved := Some(approve)) else old(table.rows)[i]) &&
      toast == Success(if approve then "Отзыв одобрен" else "Отзыв отклонён")
  {
    var error := table.SetApproval(id, approve, refusal);
    if error.Some? {
      toast := Failure("Ошибка при обновлении отзыва");
    } else {
      toast := Success(if approve then "Отзыв одобрен" else "Отзыв отклонён");
    }
  }

  /** `deleteMutation`. */
  method Remove(table: ReviewTable, id: Uuid, refusal: Option<string>) returns (toast: Toast)
    requires table.Valid()
    modifies table
    ensures table.Valid()
    ensures refusal.Some? ==> table.rows == old(table.rows) && toast == Failure("Ошибка при удалении отзыва")
    ensures refusal.None? ==>
      (forall r :: r in table.rows <==> r in old(table.rows) && r.id != id) && toast == Success("Отзыв удалён")
  {
    var error := table.Delete(id, refusal);
    if error.Some? {
      toast := Failure("Ошибка при удалении отзыва");
    } else {
      toast := Success("Отзыв удалён");
    }
  }

  /**
   * Approving moves a review to the published section; rejecting writes
   * `false`, which keeps it among the pending ones.
   */
  lemma ApprovalDecidesSection(r: Review, approve: bool)
    ensures IsApproved(r.(isApproved := Some(approve))) <==> approve
    ensures !approve ==> IsPending(r.(isApproved := Some(approve)))
  {
  }
}
