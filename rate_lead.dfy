/**
 * The customer's rating page (src/pages/RateLead.tsx): the lookup of a
 * lead by its rating token, the gates that decide what the page shows,
 * the star and comment state, and the review it submits.
 */
module RateLead {
  import opened Seqs
  import opened Domain
  import opened Leads
  import opened Reviews

  /** What the page's query returns for a lead: the row, the manager's name and whether a review exists. */
  datatype RateLeadData = RateLeadData(lead: Lead, managerName: Option<string>, alreadyReviewed: bool)

  function ProfilesOf(profiles: seq<Profile>, user: Uuid): seq<Profile>
  {
    Filter(profiles, (p: Profile) => p.userId == user)
  }

  function ReviewsOfLead(reviews: seq<Review>, lead: Uuid): seq<Review>
  {
    Filter(reviews, (r: Review) => r.leadId == Some(lead))
  }

  /**
   * `profile?.full_name` after `eq('user_id', manager).maybeSingle()`; the
   * query's error is not looked at, so anything but exactly one profile
   * gives no name.
   */
  function ManagerName(profiles: seq<Profile>, manager: Option<Uuid>): (name: Option<string>)
    ensures manager.None? ==> name.None?
    ensures manager.Some? && |ProfilesOf(profiles, manager.value)| != 1 ==> name.None?
    ensures name.Some? ==> exists p :: p in profiles && p.userId == manager.value && p.fullName == name
  {
    if manager.None? then None
    else
      var found := ProfilesOf(profiles, manager.value);
      match MaybeSingle(found)
      case Ok(Some(p)) =>
        assert p in found;
        p.fullName
      case _ => None
  }

  /** A manager with a single profile row is shown under that row's name. */
  lemma {:induction false} UniqueProfileNamed(profiles: seq<Profile>, k: nat)
    requires k < |profiles|
    requires forall i :: 0 <= i < |profiles| && i != k ==> profiles[i].userId != profiles[k].userId
    ensures ManagerName(profiles, Some(profiles[k].userId)) == profiles[k].fullName
  {
    var u := profiles[k].userId;
    var p := (q: Profile) => q.userId == u;
    var pre, post := profiles[..k], profiles[k + 1..];
    assert profiles == pre + [profiles[k]] + post;
    FilterAppend(pre + [profiles[k]], post, p);
    FilterAppend(pre, [profiles[k]], p);
    FilterNone(pre, p);
    FilterNone(post, p);
    assert Filter([profiles[k]], p) == [profiles[k]] by {
      assert [profiles[k]][..0] == [];
    }
  }

  /**
   * The page's `queryFn`: no token gives `null`; the lead lookup's error is
   * thrown; a found lead is enriched with the manager's name (only when one
   * is assigned) and with `alreadyReviewed`, which is `!!existingReview`
   * after a `maybeSingle()` whose error is ignored.
   */
  function FetchRateLead(leads: seq<Lead>, profiles: seq<Profile>, reviews: seq<Review>, token: Option<string>)
    : (r: Result<Option<RateLeadData>, string>)
    ensures !Truthy(token) ==> r == Ok(None)
    ensures r.Err? <==> LeadByToken(leads, token).Err?
    ensures r == Ok(None) <==> LeadByToken(leads, token) == Ok(None)
    ensures r.Ok? && r.value.Some? ==>
      var d := r.value.value;
      Truthy(token) && d.lead in leads && d.lead.ratingToken == token &&
      d.managerName == ManagerName(profiles, d.lead.assignedManager) &&
      (d.alreadyReviewed <==> |ReviewsOfLead(reviews, d.lead.id)| == 1)
  {
    match LeadByToken(leads, token)
    case Err(e) => Err(e)
    case Ok(None) => Ok(None)
    case Ok(Some(lead)) =>
      var name := if lead.assignedManager.Some? then ManagerName(profiles, lead.assignedManager) else None;
      var existing := MaybeSingle(ReviewsOfLead(reviews, lead.id));
      Ok(Some(RateLeadData(lead, name, existing.Ok? && existing.value.Some?)))
  }

  /** The query as the page sees it: still running, or settled with data or an error. */
  datatype Lookup = Loading | Loaded(result: Result<Option<RateLeadData>, string>)

  datatype RateView =
    | InvalidLink                                // "Неверная ссылка"
    | Spinner
    | NotFound                                   // "Заявка не найдена"
    | InProcessing                               // "Ваша заявка обрабатывается"
    | ThankYou                                   // "Спасибо за отзыв!"
    | RatingForm(managerName: Option<string>)

  predicate Found(lookup: Lookup)
  {
    lookup.Loaded? && lookup.result.Ok? && lookup.result.value.Some?
  }

  /** The chain of early returns of the page, in their order. */
  function View(token: Option<string>, lookup: Lookup, submitted: bool): (v: RateView)
    ensures !Truthy(token) ==> v == InvalidLink
    ensures v.RatingForm? <==>
      Truthy(token) && Found(lookup) && lookup.result.value.value.lead.assignedManager.Some? &&
      !lookup.result.value.value.alreadyReviewed && !submitted
    ensures v == Spinner <==> Truthy(token) && lookup.Loading?
    ensures v == NotFound <==> Truthy(token) && lookup.Loaded? && !Found(lookup)
    ensures v == InProcessing <==>
      Truthy(token) && Found(lookup) && lookup.result.value.value.lead.assignedManager.None?
    ensures v == ThankYou <==>
      Truthy(token) && Found(lookup) && lookup.result.value.value.lead.assignedManager.Some? &&
      (submitted || lookup.result.value.value.alreadyReviewed)
    ensures v.RatingForm? && v.managerName.Some? ==> v.managerName.value != ""
  {
    if !Truthy(token) then InvalidLink
    else if lookup.Loading? then Spinner
    else if !Found(lookup) then NotFound
    else
      var d := lookup.result.value.value;
      if d.lead.assignedManager.None? then InProcessing
      else if d.alreadyReviewed || submitted then ThankYou
      else RatingForm(if Truthy(d.managerName) then d.managerName else None)
  }

  /** Once a review has been submitted the form is gone for good. */
  lemma SubmittedHidesForm(token: Option<string>, lookup: Lookup)
    ensures !View(token, lookup, true).RatingForm?
  {
  }

  /** The row `submitReview` inserts. */
  function ReviewPayload(d: RateLeadData, rating: int, comment: string): (p: NewReview)
    ensures p.leadId == Some(d.lead.id) && p.managerId == d.lead.assignedManager
    ensures p.rating == rating && p.customerName == Some(d.lead.customerName)
    ensures p.isApproved == Some(false)
    ensures p.comment.None? <==> comment == ""
    ensures p.comment.Some? ==> p.comment.value == comment
  {
    NewReview(Some(d.lead.id), d.lead.assignedManager, rating,
              if comment == "" then None else Some(comment),
              Some(d.lead.customerName), Some(false))
  }

  /** A submitted review lands in the moderation queue, not on the published list. */
  lemma SubmittedReviewAwaitsModeration(d: RateLeadData, rating: int, comment: string, id: Uuid, now: int)
    ensures IsPending(ReviewRow(ReviewPayload(d, rating, comment), id, now))
    ensures !IsApproved(ReviewRow(ReviewPayload(d, rating, comment), id, now))
  {
  }

  /** The label under the stars. */
  function RatingLabel(rating: int): string
  {
    if rating == 0 then "Выберите оценку от 1 до 5"
    else if rating == 1 then "Очень плохо"
    else if rating == 2 then "Плохо"
    else if rating == 3 then "Нормально"
    else if rating == 4 then "Хорошо"
    else if rating == 5 then "Отлично!"
    else ""
  }

  /** The state of the page: the chosen and the hovered star, the comment and the `submitted` flag. */
  class RatePage {
    var rating: int
    var hovered: int
    var comment: string
    var submitted: bool

    ghost predicate Valid()
      reads this
    {
      0 <= rating <= 5 && 0 <= hovered <= 5
    }

    constructor ()
      ensures Valid()
      ensures rating == 0 && hovered == 0 && comment == "" && !submitted
    {
      rating, hovered, comment, submitted := 0, 0, "", false;
    }

    /** Star `star` is drawn filled: `star <= (hoveredRating || rating)`. */
    predicate StarLit(star: int)
      reads this
    {
      star <= (if hovered != 0 then hovered else rating)
    }

    /** `disabled={rating === 0 || submitReview.isPending}`; the pending phase is not modelled. */
    predicate SubmitDisabled()
      reads this
    {
      rating == 0
    }

    method ClickStar(star: int)
      requires Valid() && 1 <= star <= 5
      modifies this
      ensures Valid()
      ensures rating == star && hovered == old(hovered) && comment == old(comment) && submitted == old(submitted)
      ensures !SubmitDisabled()
    {
      rating := star;
    }

    method HoverStar(star: int)
      requires Valid() && 0 <= star <= 5
      modifies this
      ensures Valid()
      ensures hovered == star && rating == old(rating) && comment == old(comment) && submitted == old(submitted)
    {
      hovered := star;
    }

    method EditComment(text: string)
      requires Valid()
      modifies this
      ensures Valid()
      ensures comment == text && rating == old(rating) && hovered == old(hovered) && submitted == old(submitted)
    {
      comment := text;
    }

    /**
     * `submitReview.mutate()`, reachable only through the enabled button:
     * no lead data fails with "Заявка не найдена"; otherwise the review is
     * inserted, and only a successful insert sets `submitted`.
     */
    method Submit(table: ReviewTable, data: Option<RateLeadData>, id: Uuid, now: int) returns (toast: Toast)
      requires Valid() && table.Valid() && !SubmitDisabled()
      modifies this, table
      ensures Valid() && table.Valid()
      ensures rating == old(rating) && hovered == old(hovered) && comment == old(comment)
      ensures data.None? ==> table.rows == old(table.rows) && submitted == old(submitted) &&
                             toast == Failure("Ошибка: Заявка не найдена")
      ensures data.Some? && id !in ReviewIds(old(table.rows)) ==>
        table.rows == old(table.rows) + [ReviewRow(ReviewPayload(data.value, rating, comment), id, now)] &&
        submitted && toast == Success("Спасибо за отзыв!")
      ensures data.Some? && id in ReviewIds(old(table.rows)) ==>
        table.rows == old(table.rows) && submitted == old(submitted) && toast.Failure?
      ensures submitted && !old(submitted) ==> 1 <= table.rows[|table.rows| - 1].rating <= 5
    {
      if data.None? {
        toast := Failure("Ошибка: " + "Заявка не найдена");
        return;
      }
      var error := table.Insert(ReviewPayload(data.value, rating, comment), id, now);
      if error.None? {
        submitted := true;
        toast := Success("Спасибо за отзыв!");
      } else {
        toast := Failure("Ошибка: " + error.value);
      }
    }
  }
}
