/**
 * The `leads` table and the hooks over it (src/hooks/useLeads.tsx): the
 * listing query, lead creation, partial updates by id, the status-bucket
 * statistics and the lookup by rating token.
 */
module Leads {
  import opened Seqs
  import opened Domain
  import Ordering

  function IdsOf(rows: seq<Lead>): set<Uuid>
  {
    set l | l in rows :: l.id
  }

  /** Position of the row with primary key `id`, if any. */
  function FindLead(rows: seq<Lead>, id: Uuid): (k: Option<nat>)
    ensures k.Some? ==> k.value < |rows| && rows[k.value].id == id
    ensures k.None? <==> id !in IdsOf(rows)
  {
    if rows == [] then None
    else if rows[0].id == id then Some(0)
    else
      var k := FindLead(rows[1..], id);
      assert forall l :: l in rows ==> l == rows[0] || l in rows[1..];
      if k.Some? then Some(k.value + 1) else None
  }

  // ---------------------------------------------------------------- listing

  /**
   * The query `useLeads` builds: every lead, newest first, and when a
   * manager id is given only that manager's leads and the unassigned ones.
   */
  datatype LeadQuery = LeadQuery(visibleTo: Option<Uuid>)

  predicate Matches(q: LeadQuery, l: Lead)
  {
    q.visibleTo.None? || l.assignedManager == q.visibleTo || l.assignedManager.None?
  }

  function RunLeadQuery(rows: seq<Lead>, q: LeadQuery): seq<Lead>
  {
    Ordering.SortDesc(Filter(rows, (l: Lead) => Matches(q, l)), LeadCreatedAt)
  }

  /** `useLeads(managerId)`: the query is built clause by clause and then run against the table. */
  method ListLeads(rows: seq<Lead>, managerId: Option<string>) returns (r: seq<Lead>)
    ensures Ordering.NonIncreasing(r, LeadCreatedAt)
    ensures Truthy(managerId) ==>
      forall l :: l in r <==> l in rows && (l.assignedManager == Some(managerId.value) || l.assignedManager.None?)
    ensures !Truthy(managerId) ==> multiset(r) == multiset(rows)
    ensures multiset(r) <= multiset(rows)
  {
    var q := LeadQuery(None);
    if managerId.Some? && managerId.value != "" {
      q := LeadQuery(Some(managerId.value));
    }
    r := RunLeadQuery(rows, q);
    FilterSubMultiset(rows, (l: Lead) => Matches(q, l));
    if !Truthy(managerId) {
      FilterAll(rows, (l: Lead) => Matches(q, l));
    }
  }

  // ---------------------------------------------------------------- mutations

  /** The fields the lead form hands to `useCreateLead`. */
  datatype NewLead = NewLead(
    customerName: string,
    customerPhone: string,
    customerEmail: Option<string>,
    carId: Option<Uuid>,
    message: Option<string>,
    source: Option<string>)

  /**
   * What the store fills in on insert: the primary key, `created_at`, and
   * the column defaults of `status` and `rating_token`. The client never
   * sends these.
   */
  datatype StoreDefaults = StoreDefaults(id: Uuid, createdAt: int, status: LeadStatus, ratingToken: Option<string>)

  function NewLeadRow(input: NewLead, d: StoreDefaults): Lead
  {
    Lead(d.id, input.customerName, input.customerPhone, input.customerEmail, input.carId,
         input.message, input.source, d.status, None, d.ratingToken, d.createdAt)
  }

  /**
   * `Partial<Lead>` as `useUpdateLead` sends it: a column is written only
   * when present. The page's callers send only `status` and
   * `assigned_manager_id`. `id`, `rating_token` and `created_at` are left
   * out of the patch, so an update keeps them by construction.
   */
  datatype LeadPatch = LeadPatch(
    customerName: Option<string>,
    customerPhone: Option<string>,
    customerEmail: Option<Option<string>>,
    carId: Option<Option<Uuid>>,
    message: Option<Option<string>>,
    source: Option<Option<string>>,
    status: Option<LeadStatus>,
    assignedManager: Option<Uuid>)

  const NoLeadChange: LeadPatch := LeadPatch(None, None, None, None, None, None, None, None)

  function Pick<T>(p: Option<T>, current: T): T
  {
    if p.Some? then p.value else current
  }

  /** The row after `update(patch)`: supplied columns take the new value, the others keep theirs. */
  function ApplyLeadPatch(l: Lead, p: LeadPatch): (r: Lead)
    ensures r.id == l.id && r.createdAt == l.createdAt && r.ratingToken == l.ratingToken
    ensures r.status == if p.status.Some? then p.status.value else l.status
    ensures r.assignedManager == if p.assignedManager.Some? then p.assignedManager else l.assignedManager
  {
    l.(customerName := Pick(p.customerName, l.customerName),
       customerPhone := Pick(p.customerPhone, l.customerPhone),
       customerEmail := Pick(p.customerEmail, l.customerEmail),
       carId := Pick(p.carId, l.carId),
       message := Pick(p.message, l.message),
       source := Pick(p.source, l.source),
       status := Pick(p.status, l.status),
       assignedManager := if p.assignedManager.Some? then p.assignedManager else l.assignedManager)
  }

  /** An empty patch leaves the row as it was. */
  lemma NoChangeIsIdentity(l: Lead)
    ensures ApplyLeadPatch(l, NoLeadChange) == l
  {
  }

  /** Sending the same patch twice has the effect of sending it once. */
  lemma PatchIdempotent(l: Lead, p: LeadPatch)
    ensures ApplyLeadPatch(ApplyLeadPatch(l, p), p) == ApplyLeadPatch(l, p)
  {
  }

  /** The `leads` table of the store. */
  class LeadTable {
    var rows: seq<Lead>

    ghost predicate Valid()
      reads this
    {
      UniqueLeadIds(rows)
    }

    constructor (initial: seq<Lead>)
      requires UniqueLeadIds(initial)
      ensures Valid() && rows == initial
    {
      rows := initial;
    }

    /** `useCreateLead`: `insert(lead).select().single()`; a clashing primary key is refused. */
    method Insert(input: NewLead, d: StoreDefaults) returns (r: Result<Lead, string>)
      requires Valid()
      modifies this
      ensures Valid()
      ensures d.id in IdsOf(old(rows)) ==> r.Err? && rows == old(rows)
      ensures d.id !in IdsOf(old(rows)) ==>
        r == Ok(NewLeadRow(input, d)) && rows == old(rows) + [NewLeadRow(input, d)]
    {
      if d.id in IdsOf(rows) {
        r := Err("duplicate key value violates unique constraint \"leads_pkey\"");
      } else {
        var row := NewLeadRow(input, d);
        assert forall i :: 0 <= i < |rows| ==> rows[i] in rows;
        rows := rows + [row];
        r := Ok(row);
      }
    }

    /**
     * `useUpdateLead`: `update(patch).eq('id', id).select().single()`.
     * Only the row with that id changes, and only in the supplied columns;
     * no row with that id is an error from `.single()`.
     */
    method Update(id: Uuid, patch: LeadPatch) returns (r: Result<Lead, string>)
      requires Valid()
      modifies this
      ensures Valid()
      ensures |rows| == |old(rows)|
      ensures forall i :: 0 <= i < |rows| ==>
        rows[i] == if old(rows)[i].id == id then ApplyLeadPatch(old(rows)[i], patch) else old(rows)[i]
      ensures r.Ok? <==> id in IdsOf(old(rows))
      ensures r.Ok? ==> r.value in rows && r.value.id == id
    {
      var k := FindLead(rows, id);
      rows := seq(|rows|, i requires 0 <= i < |rows| reads this =>
        if rows[i].id == id then ApplyLeadPatch(rows[i], patch) else rows[i]);
      if k.Some? {
        r := Ok(rows[k.value]);
      } else {
        r := Err(WrongRowCount);
      }
    }
  }

  // ---------------------------------------------------------------- statistics

  /** `rows.filter(l => bucket.includes(l.status)).length`. */
  function CountIn(rows: seq<Lead>, bucket: set<LeadStatus>): (n: nat)
    ensures n <= |rows|
  {
    if rows == [] then 0
    else CountIn(rows[..|rows| - 1], bucket) + (if rows[|rows| - 1].status in bucket then 1 else 0)
  }

  const InProgress: set<LeadStatus> := {Contacted, Negotiating}
  const Closed: set<LeadStatus> := {ClosedWon, ClosedLost}

  datatype LeadStats = LeadStats(total: nat, newLeads: nat, inProgress: nat, closed: nat, won: nat)

  /** `useLeadStats`. */
  function Stats(rows: seq<Lead>): LeadStats
  {
    LeadStats(|rows|, CountIn(rows, {New}), CountIn(rows, InProgress), CountIn(rows, Closed), CountIn(rows, {ClosedWon}))
  }

  /** Counting over two disjoint buckets adds up. */
  lemma {:induction false} CountInUnion(rows: seq<Lead>, a: set<LeadStatus>, b: set<LeadStatus>)
    requires a !! b
    ensures CountIn(rows, a + b) == CountIn(rows, a) + CountIn(rows, b)
  {
    if rows != [] {
      CountInUnion(rows[..|rows| - 1], a, b);
    }
  }

  /** A larger bucket counts at least as many leads. */
  lemma {:induction false} CountInMonotone(rows: seq<Lead>, a: set<LeadStatus>, b: set<LeadStatus>)
    requires a <= b
    ensures CountIn(rows, a) <= CountIn(rows, b)
  {
    if rows != [] {
      CountInMonotone(rows[..|rows| - 1], a, b);
    }
  }

  /** Every lead has one of the five statuses. */
  lemma {:induction false} CountInEveryStatus(rows: seq<Lead>)
    ensures CountIn(rows, {New, Contacted, Negotiating, ClosedWon, ClosedLost}) == |rows|
  {
    if rows != [] {
      CountInEveryStatus(rows[..|rows| - 1]);
      match rows[|rows| - 1].status
      case New =>
      case Contacted =>
      case Negotiating =>
      case ClosedWon =>
      case ClosedLost =>
    }
  }

  /** `new + inProgress + closed == total`: the three buckets partition the leads. */
  lemma StatsPartition(rows: seq<Lead>)
    ensures Stats(rows).newLeads + Stats(rows).inProgress + Stats(rows).closed == Stats(rows).total
  {
    CountInUnion(rows, {New}, InProgress);
    CountInUnion(rows, {New} + InProgress, Closed);
    assert {New} + InProgress + Closed == {New, Contacted, Negotiating, ClosedWon, ClosedLost};
    CountInEveryStatus(rows);
  }

  /** `inProgress` counts exactly the contacted and the negotiating leads; `won <= closed`. */
  lemma StatsBuckets(rows: seq<Lead>)
    ensures Stats(rows).inProgress == CountIn(rows, {Contacted}) + CountIn(rows, {Negotiating})
    ensures Stats(rows).won <= Stats(rows).closed
    ensures Stats(rows).total == |rows|
  {
    CountInUnion(rows, {Contacted}, {Negotiating});
    assert {Contacted} + {Negotiating} == InProgress;
    CountInMonotone(rows, {ClosedWon}, Closed);
  }

  // ---------------------------------------------------------------- token lookup

  function WithToken(rows: seq<Lead>, token: string): seq<Lead>
  {
    Filter(rows, (l: Lead) => l.ratingToken == Some(token))
  }

  /**
   * `useLeadByToken`: no token gives `null` without a query; otherwise
   * `eq('rating_token', token).maybeSingle()`.
   */
  function LeadByToken(rows: seq<Lead>, token: Option<string>): (r: Result<Option<Lead>, string>)
    ensures !Truthy(token) ==> r == Ok(None)
    ensures r.Ok? && r.value.Some? ==> r.value.value in rows && r.value.value.ratingToken == token
    ensures Truthy(token) && r == Ok(None) ==> forall l :: l in rows ==> l.ratingToken != token
    ensures r.Err? ==> Truthy(token) && |WithToken(rows, token.value)| > 1
  {
    if !Truthy(token) then Ok(None)
    else
      var found := WithToken(rows, token.value);
      assert found != [] ==> found[0] in found;
      MaybeSingle(found)
  }

  /** With unique tokens, a lead's own token finds exactly that lead. */
  lemma {:induction false} TokenFindsItsLead(rows: seq<Lead>, k: nat)
    requires k < |rows| && rows[k].ratingToken.Some? && rows[k].ratingToken.value != ""
    requires forall i :: 0 <= i < |rows| && i != k ==> rows[i].ratingToken != rows[k].ratingToken
    ensures LeadByToken(rows, rows[k].ratingToken) == Ok(Some(rows[k]))
  {
    var t := rows[k].ratingToken.value;
    var found := WithToken(rows, t);
    assert rows[k] in found;
    assert forall l :: l in found ==> l == rows[k];
    if |found| > 1 {
      assert found[0] == found[1] by { assert found[0] in found && found[1] in found; }
      OnlyOneMatch(rows, k, t);
    }
  }

  /** The filter for a token held by a single row yields that row once. */
  lemma {:induction false} OnlyOneMatch(rows: seq<Lead>, k: nat, t: string)
    requires k < |rows| && rows[k].ratingToken == Some(t)
    requires forall i :: 0 <= i < |rows| && i != k ==> rows[i].ratingToken != Some(t)
    ensures |WithToken(rows, t)| == 1
  {
    var pre, post := rows[..k], rows[k + 1..];
    assert rows == pre + [rows[k]] + post;
    FilterAppend(pre + [rows[k]], post, (l: Lead) => l.ratingToken == Some(t));
    FilterAppend(pre, [rows[k]], (l: Lead) => l.ratingToken == Some(t));
    assert forall l :: l in pre ==> l.ratingToken != Some(t);
    assert forall l :: l in post ==> l.ratingToken != Some(t);
    FilterNone(pre, (l: Lead) => l.ratingToken == Some(t));
    FilterNone(post, (l: Lead) => l.ratingToken == Some(t));
    assert Filter([rows[k]], (l: Lead) => l.ratingToken == Some(t)) == [rows[k]] by {
      assert [rows[k]][..0] == [];
    }
  }
}
