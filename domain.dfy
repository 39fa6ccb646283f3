/**
 * Rows of the dealership's tables and the enums of the store
 * (`car_status`, `lead_status`, `app_role`). Timestamps (`created_at`)
 * are modelled as integers, which is all the ordering needs.
 */
module Domain {
  import opened Seqs

  /** A row id or user id: a uuid, never the empty string. */
  type Uuid = s: string | s != [] witness "0"

  datatype AppRole = Admin | Manager

  datatype CarStatus = Available | Reserved | Sold

  datatype LeadStatus = New | Contacted | Negotiating | ClosedWon | ClosedLost

  /** The keys of `LEAD_STATUSES`, in declaration order. */
  const LeadStatuses: seq<LeadStatus> := [New, Contacted, Negotiating, ClosedWon, ClosedLost]

  datatype Lead = Lead(
    id: Uuid,
    customerName: string,
    customerPhone: string,
    customerEmail: Option<string>,
    carId: Option<Uuid>,
    message: Option<string>,
    source: Option<string>,
    status: LeadStatus,
    assignedManager: Option<Uuid>,
    ratingToken: Option<string>,
    createdAt: int)

  datatype Review = Review(
    id: Uuid,
    leadId: Option<Uuid>,
    managerId: Option<Uuid>,
    rating: int,
    comment: Option<string>,
    customerName: Option<string>,
    isApproved: Option<bool>,
    createdAt: int)

  datatype ManagerScore = ManagerScore(
    id: Uuid,
    managerId: Uuid,
    actionType: string,
    points: int,
    leadId: Option<Uuid>,
    description: Option<string>,
    createdAt: int)

  datatype Profile = Profile(userId: Uuid, fullName: Option<string>, phone: Option<string>)

  datatype RoleRow = RoleRow(userId: Uuid, role: AppRole)

  /** The columns of a car an admin edits (`engine_volume`, a float, is not modelled). */
  datatype CarFields = CarFields(
    make: string,
    model: string,
    year: int,
    bodyType: Option<string>,
    fuelType: Option<string>,
    transmission: Option<string>,
    mileage: Option<int>,
    color: Option<string>,
    description: Option<string>,
    publicPrice: int,
    costPrice: Option<int>,
    deliveryCost: Option<int>,
    customsCost: Option<int>,
    utilizationFee: Option<int>,
    registrationCost: Option<int>,
    commission: Option<int>,
    sellerNotes: Option<string>,
    status: CarStatus,
    isFeatured: Option<bool>,
    images: Option<seq<string>>)

  datatype Car = Car(id: Uuid, createdAt: int, fields: CarFields)

  /** The toast a page handler shows; `Silent` when the handler returns without one. */
  datatype Toast = Success(text: string) | Failure(text: string) | Silent

  function LeadCreatedAt(l: Lead): int { l.createdAt }
  function CarCreatedAt(c: Car): int { c.createdAt }
  function ReviewCreatedAt(r: Review): int { r.createdAt }
  function ScoreCreatedAt(s: ManagerScore): int { s.createdAt }

  function LeadId(l: Lead): Uuid { l.id }
  function CarId(c: Car): Uuid { c.id }
  function ReviewId(r: Review): Uuid { r.id }

  /** No two rows of a table share a primary key. */
  ghost predicate UniqueLeadIds(rows: seq<Lead>)
  {
    UniqueBy(rows, LeadId)
  }

  ghost predicate UniqueCarIds(rows: seq<Car>)
  {
    UniqueBy(rows, CarId)
  }

  ghost predicate UniqueReviewIds(rows: seq<Review>)
  {
    UniqueBy(rows, ReviewId)
  }
}
